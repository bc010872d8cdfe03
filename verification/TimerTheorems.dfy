/** What the timer queue guarantees over whole runs. */
module TimerTheorems {
  import opened Numbers
  import opened TimerEntries
  import opened TimerModel
  import opened TimerInvariant

  function Count(b0: bool, b1: bool, b2: bool, b3: bool): nat {
    (if b0 then 1 else 0) + (if b1 then 1 else 0) + (if b2 then 1 else 0) + (if b3 then 1 else 0)
  }

  /** In every state satisfying the invariant each created timer has exactly one owner. */
  lemma OneOwner(s: State, q: nat)
    requires Inv(s) && q in s.history.born
    ensures Count(IsQueued(s, q), IsIndexed(s, q), IsExpired(s, q), IsDeleted(s, q)) == 1
  {
    if q !in s.history.deleted {
      var a := s.history.born[q].addr;
      assert Alive(s, q) && Owned(s, a);
      if q in s.history.batch {
        var i :| 0 <= i < |s.history.batch| && s.history.batch[i] == q;
        assert s.expired[i].timer == a;
      }
    }
  }

  /** Ownership is a partition in every reachable state, no assertion of the source fails and
      the queue itself reads, runs and deletes live timers only, whatever callbacks and other
      threads do. What addTimer reads on another thread is the subject of TimerIds. */
  lemma TimerOwnership(s: State)
    requires Reachable(s)
    ensures !s.fault
    ensures forall q :: 1 <= q <= s.created <==> q in s.history.born
    ensures forall q | q in s.history.born ::
      Count(IsQueued(s, q), IsIndexed(s, q), IsExpired(s, q), IsDeleted(s, q)) == 1
  {
    ReachableInv(s);
    forall q | q in s.history.born
      ensures Count(IsQueued(s, q), IsIndexed(s, q), IsExpired(s, q), IsDeleted(s, q)) == 1
    {
      OneOwner(s, q);
    }
  }

  /** The two ordered sets always describe the same timers under their current keys. */
  lemma IndexesAgree(s: State)
    requires Reachable(s)
    ensures |s.timers| == |s.active|
    ensures forall a, q :: ActiveTimer(a, q) in s.active <==>
      a in s.heap && s.heap[a].sequence == q && EntryAt(s, a) in s.timers
    ensures forall e | e in s.timers :: e.timer in s.heap && s.heap[e.timer].expiration == e.when
  {
    ReachableInv(s);
  }

  /** Between handler runs a non-empty queue has its timerfd armed, or fired and unread, for a
      deadline no later than the earliest expiration or 100us after it was set. */
  lemma TimerfdArmed(s: State)
    requires Reachable(s) && !s.calling && s.timers != []
    ensures forall e | e in s.timers :: s.timers[0].when <= e.when
    ensures s.fd.Fired? ||
      (s.fd.Armed? && s.fd.setAt <= s.clock < s.fd.target <= Max(s.timers[0].when, s.fd.setAt + 100))
  {
    ReachableInv(s);
    forall e | e in s.timers
      ensures s.timers[0].when <= e.when
    {
      var i :| 0 <= i < |s.timers| && s.timers[i] == e;
      assert i == 0 || Less(s.timers[0], s.timers[i]);
    }
  }

  lemma BeginSplits(s: State)
    requires Inv(s) && !s.calling
    ensures var r := Begin(s); var k := |r.expired|;
      && r.calling && r.now == s.clock
      && k <= |s.timers| && r.expired == s.timers[..k] && r.timers == s.timers[k..]
      && (forall i | 0 <= i < k :: s.timers[i].when <= s.clock)
      && (forall i | k <= i < |s.timers| :: s.clock < s.timers[i].when)
      && r.history == s.history.(batch := Sequences(s, r.expired), round := s.history.round + 1)
  {
    var s1 := s.(fd := ReadTimerfd(s.fd));
    FdChangeCore(s, s1.fd);
    GetExpiredSplits(s1, s.clock);
    assert Sequences(s1, Begin(s).expired) == Sequences(s, Begin(s).expired);
  }

  /** What a batch is: the timers due at the time of the read, oldest expiration first; the
      timers that stay are exactly those not due. */
  lemma BatchIsWhatIsDue(s: State, r: State)
    requires Reachable(s) && !s.calling && r == Step(s, BeginRead)
    ensures r.calling && r.now == s.clock
    ensures s.timers == r.expired + r.timers
    ensures forall e | e in s.timers :: e in r.expired <==> e.when <= s.clock
    ensures forall e | e in s.timers :: e in r.timers <==> s.clock < e.when
    ensures forall i, j | 0 <= i < j < |r.expired| :: r.expired[i].when <= r.expired[j].when
    ensures r.history.batch == Sequences(s, r.expired)
  {
    ReachableInv(s);
    BeginSplits(s);
    SplitByTime(s.timers, |r.expired|, s.clock);
  }

  lemma SplitByTime(ts: seq<Entry>, k: nat, now: int)
    requires Sorted(ts) && k <= |ts|
    requires forall i | 0 <= i < k :: ts[i].when <= now
    requires forall i | k <= i < |ts| :: now < ts[i].when
    ensures ts == ts[..k] + ts[k..]
    ensures forall e | e in ts :: e in ts[..k] <==> e.when <= now
    ensures forall e | e in ts :: e in ts[k..] <==> now < e.when
    ensures forall i, j | 0 <= i < j < k :: ts[..k][i].when <= ts[..k][j].when
  {
    assert ts == ts[..k] + ts[k..];
    assert forall j | 0 <= j < |ts[k..]| :: ts[k..][j] == ts[k + j];
    assert forall i, j | 0 <= i < j < k :: Less(ts[i], ts[j]);
  }

  // ---- cancellation ---------------------------------------------------------------------

  /** What is recorded of the past only grows. */
  ghost predicate Later(s: State, r: State) {
    && s.history.cancelled <= r.history.cancelled
    && s.history.deleted <= r.history.deleted
    && (forall q | q in s.history.born :: q in r.history.born && r.history.born[q] == s.history.born[q])
  }

  /** No call of addTimer has begun or ended. */
  ghost predicate SameReads(s: State, r: State) {
    r.reading == s.reading && r.history.found == s.history.found
  }

  lemma {:induction false} EraseActiveLater(s: State, es: seq<Entry>)
    ensures EraseActive(s, es).history == s.history && EraseActive(s, es).reading == s.reading
    decreases |es|
  {
    if !s.fault && es != [] && es[0].timer in s.heap && IdAt(s, es[0].timer) in s.active {
      EraseActiveLater(s.(active := s.active - {IdAt(s, es[0].timer)}), es[1..]);
    }
  }

  lemma BeginLater(s: State)
    ensures Later(s, Begin(s)) && SameReads(s, Begin(s))
  {
    var k := LowerBound(s.timers, Entry(s.clock, UINTPTR_MAX));
    var due := s.timers[..k];
    var s1 := s.(fd := ReadTimerfd(s.fd));
    EraseActiveLater(s1.(timers := s.timers[k..], now := s.clock, expired := due,
                         history := s.history.(batch := Sequences(s1, due))), due);
  }

  lemma DeleteLater(s: State, a: Addr)
    ensures Later(s, Delete(s, a)) && SameReads(s, Delete(s, a))
    ensures Later(s, Sized(Delete(s, a))) && SameReads(s, Sized(Delete(s, a)))
  {}

  lemma InsertLater(s: State, a: Addr)
    ensures InsertTimer(s, a).history == s.history && InsertTimer(s, a).reading == s.reading
  {}

  lemma Reset1Later(s: State)
    requires s.expired != []
    ensures Later(s, Reset1(s)) && SameReads(s, Reset1(s))
  {
    var a := s.expired[0].timer;
    var s' := s.(expired := s.expired[1..],
                 history := s.history.(batch := if s.history.batch == [] then [] else s.history.batch[1..]));
    if a in s.heap {
      InsertLater(s'.(heap := s.heap[a := Restart(s.heap[a], s.now)]), a);
      DeleteLater(s', a);
    }
  }

  lemma {:induction false} ResetLoopLater(s: State)
    ensures Later(s, ResetLoop(s)) && SameReads(s, ResetLoop(s))
    decreases |s.expired|
  {
    if !s.fault && s.expired != [] {
      Reset1Later(s);
      if !Reset1(s).fault {
        ResetLoopLater(Reset1(s));
      }
    }
  }

  lemma EndLater(s: State)
    ensures Later(s, End(s)) && SameReads(s, End(s))
  {
    ResetLoopLater(s.(calling := false, ran := 0));
  }

  lemma MarkLater(s: State, id: ActiveTimer)
    ensures Later(s, Mark(s, id)) && SameReads(s, Mark(s, id))
  {}

  lemma CancelLater(s: State, id: ActiveTimer)
    ensures Later(s, CancelInLoop(s, id)) && SameReads(s, CancelInLoop(s, id))
  {
    var m := Mark(s, id);
    MarkLater(s, id);
    if |s.timers| == |s.active| && id in s.active && id.timer in s.heap && EntryAt(s, id.timer) in s.timers {
      DeleteLater(m.(timers := Erase(s.timers, EntryAt(s, id.timer)), active := s.active - {id}), id.timer);
    }
  }

  lemma AddLater(s: State, a: Addr)
    ensures AddTimerInLoop(s, a).history == s.history && AddTimerInLoop(s, a).reading == s.reading
  {
    InsertLater(s.(queued := s.queued - {a}), a);
  }

  lemma NewLater(s: State, a: Addr, when: int, interval: nat, repeat: bool)
    requires HeapOk(s)
    ensures Later(s, NewTimer(s, a, when, interval, repeat))
  {}

  predicate OfAddTimer(e: Event) {
    e.User? && (e.call.New? || e.call.ReadId?)
  }

  lemma StepLater(s: State, e: Event)
    requires HeapOk(s)
    ensures Later(s, Step(s, e))
    ensures !OfAddTimer(e) ==> SameReads(s, Step(s, e))
  {
    match e
    case User(c) =>
      match c {
        case New(a, when, interval, repeat) => NewLater(s, a, when, interval, repeat);
        case Add(a) => AddLater(s, a);
        case ReadId(_) =>
        case Cancel(id) => CancelLater(s, id);
        case Tick(_) =>
      }
    case BeginRead => BeginLater(s);
    case RunNext =>
    case EndRead => EndLater(s);
  }

  lemma {:induction false} RunLater(s: State, es: seq<Event>)
    requires Inv(s)
    ensures Later(s, Run(s, es))
    decreases |es|
  {
    if es != [] {
      RunLater(s, es[..|es| - 1]);
      RunInv(s, es[..|es| - 1]);
      StepLater(Run(s, es[..|es| - 1]), es[|es| - 1]);
    }
  }

  /** A deleted timer is in no batch. */
  lemma DeletedNotInBatch(s: State, q: nat)
    requires Core(s) && q in s.history.deleted
    ensures q !in s.history.batch
  {}

  /** Once cancelInLoop has run for the id of an added timer, that timer is deleted by the end
      of the handler run and is in no later batch, even if it repeats and even if it cancels
      itself from its own callback. */
  lemma CancelIsFinal(s: State, id: ActiveTimer, after: seq<Event>)
    requires Reachable(s) && Added(s, id)
    ensures var t := Run(Step(s, User(Cancel(id))), after);
      !t.calling ==> id.sequence in t.history.deleted && id.sequence !in Step(t, BeginRead).history.batch
  {
    ReachableInv(s);
    var s1 := Step(s, User(Cancel(id)));
    StepInv(s, User(Cancel(id)));
    CancelMarks(s, id);
    RunLater(s1, after);
    RunInv(s1, after);
    var t := Run(s1, after);
    if !t.calling {
      assert id.sequence in t.history.cancelled;
      StepInv(t, BeginRead);
      BeginSplits(t);
      DeletedNotInBatch(Begin(t), id.sequence);
    }
  }

  lemma CancelMarks(s: State, id: ActiveTimer)
    requires Inv(s) && Added(s, id)
    ensures id.sequence in CancelInLoop(s, id).history.cancelled
  {
    if id in s.active { EraseKeepsSet(s.timers, EntryAt(s, id.timer)); }
  }

  /** Cancelling an id leaves every timer with another number where it was, even a timer that
      now lives at the address in the id, and never marks such a timer for suppression. */
  lemma StaleIdIsHarmless(s: State, id: ActiveTimer, q: nat, r: State)
    requires Reachable(s) && r == Step(s, User(Cancel(id)))
    requires q in s.history.born && q != id.sequence
    ensures r.history.born == s.history.born
    ensures IsQueued(r, q) == IsQueued(s, q) && IsIndexed(r, q) == IsIndexed(s, q)
    ensures IsExpired(r, q) == IsExpired(s, q) && IsDeleted(r, q) == IsDeleted(s, q)
    ensures Alive(s, q) ==> Alive(r, q) && r.heap[s.history.born[q].addr] == s.heap[s.history.born[q].addr]
    ensures var own := ActiveTimer(s.history.born[q].addr, q); own in r.canceling <==> own in s.canceling
  {
    ReachableInv(s);
    if id in s.active {
      CancelRemoves(s, id);
      RemovalIsLocal(s, r, id, q);
    } else {
      MissIsLocal(s, id, q);
    }
  }

  lemma RemovalIsLocal(s: State, r: State, id: ActiveTimer, q: nat)
    requires Removed(s, r, id.timer) && id == IdAt(s, id.timer)
    requires q in s.history.born && q != id.sequence
    ensures IsQueued(r, q) == IsQueued(s, q) && IsIndexed(r, q) == IsIndexed(s, q)
    ensures IsExpired(r, q) == IsExpired(s, q) && IsDeleted(r, q) == IsDeleted(s, q)
    ensures Alive(s, q) ==> Alive(r, q) && r.heap[s.history.born[q].addr] == s.heap[s.history.born[q].addr]
  {}

  lemma MissIsLocal(s: State, id: ActiveTimer, q: nat)
    requires !s.fault && |s.timers| == |s.active| && id !in s.active && q in s.history.born && q != id.sequence
    ensures var r := CancelInLoop(s, id);
      && r.history.born == s.history.born
      && IsQueued(r, q) == IsQueued(s, q) && IsIndexed(r, q) == IsIndexed(s, q)
      && IsExpired(r, q) == IsExpired(s, q) && IsDeleted(r, q) == IsDeleted(s, q)
      && r.heap == s.heap
      && (ActiveTimer(s.history.born[q].addr, q) in r.canceling <==>
          ActiveTimer(s.history.born[q].addr, q) in s.canceling)
  {}

  // ---- reset ----------------------------------------------------------------------------

  /** Timer `q` with its next expiration, one interval after the handler's reading of the clock. */
  ghost function Again(s: State, q: nat): Timer
    requires Alive(s, q)
  {
    var t := s.heap[s.history.born[q].addr];
    t.(expiration := s.now + t.interval)
  }

  /** Timer `q` is alive with the fields `t`. */
  ghost predicate Holds(s: State, q: nat, t: Timer) {
    Alive(s, q) && s.heap[s.history.born[q].addr] == t
  }

  /** One turn of reset put the timer at `a` back, under its next expiration. */
  ghost predicate Reinserted(s: State, r: State, a: Addr) {
    && a in s.heap
    && r.heap == s.heap[a := s.heap[a].(expiration := s.now + s.heap[a].interval)]
    && (forall e :: e in r.timers <==> e in s.timers || e == EntryAt(r, a))
    && r.active == s.active + {IdAt(s, a)}
    && r.history.deleted == s.history.deleted
  }

  /** One turn of reset freed the timer at `a`. */
  ghost predicate Freed(s: State, r: State, a: Addr) {
    && a in s.heap
    && r.heap == s.heap - {a} && r.timers == s.timers && r.active == s.active
    && r.history.deleted == s.history.deleted + {s.heap[a].sequence}
  }

  lemma ReinsertEffect(s: State)
    requires Core(s) && s.expired != [] && s.expired[0].timer in s.heap && Kept(s)
    ensures Reinserted(s, Reset1(s), s.expired[0].timer)
  {
    var a := s.expired[0].timer;
    var t := Popped(s).(heap := s.heap[a := Restart(s.heap[a], s.now)]);
    ReinsertCore(s);
    InsertTimerWorks(t, a);
    assert Reset1(s) == InsertTimer(t, a);
  }

  lemma Reset1Effect(s: State)
    requires Core(s) && s.expired != []
    ensures var a := s.expired[0].timer; var r := Reset1(s);
      && a in s.heap
      && if Kept(s) then Reinserted(s, r, a) else Freed(s, r, a)
  {
    PopOwnership(s);
    if Kept(s) {
      ReinsertEffect(s);
    }
  }

  lemma ReinsertedFate(s: State, r: State, a: Addr, q: nat)
    requires Reinserted(s, r, a) && q in s.history.born && r.history.born == s.history.born
    requires s.heap[a].sequence in s.history.born && s.history.born[s.heap[a].sequence].addr == a
    requires forall e | e in s.timers :: e.timer != a
    ensures q == s.heap[a].sequence ==> IsIndexed(r, q) && Holds(r, q, Again(s, q))
    ensures q != s.heap[a].sequence ==> IsIndexed(r, q) == IsIndexed(s, q)
    ensures q != s.heap[a].sequence && Alive(s, q) ==> Holds(r, q, s.heap[s.history.born[q].addr])
  {}

  lemma FreedFate(s: State, r: State, a: Addr, q: nat)
    requires Freed(s, r, a) && q in s.history.born && r.history.born == s.history.born
    requires s.heap[a].sequence in s.history.born && s.history.born[s.heap[a].sequence].addr == a
    ensures q == s.heap[a].sequence ==> !IsIndexed(r, q) && IsDeleted(r, q)
    ensures q != s.heap[a].sequence ==> IsIndexed(r, q) == IsIndexed(s, q) && IsDeleted(r, q) == IsDeleted(s, q)
    ensures q != s.heap[a].sequence && Alive(s, q) ==> Holds(r, q, s.heap[s.history.born[q].addr])
  {}

  /** The first expired timer lives where it was born, is in neither set and is not deleted. */
  lemma FirstExpired(s: State)
    requires Core(s) && s.expired != []
    ensures |s.history.batch| > 0 && s.expired[0].timer in s.heap
    ensures var a := s.expired[0].timer; var q := s.history.batch[0];
      && s.heap[a].sequence == q && q in s.history.born && s.history.born[q].addr == a
      && !IsDeleted(s, q)
      && forall e | e in s.timers :: e.timer != a
  {
    PopOwnership(s);
  }

  /** One turn of reset decides the fate of the first timer and of no other. */
  lemma Reset1Fate(s: State, q: nat)
    requires Resetting(s) && s.expired != [] && q in s.history.born
    ensures var r := Reset1(s);
      && r.history.born == s.history.born && r.canceling == s.canceling && r.now == s.now
      && |s.history.batch| > 0 && s.expired[0].timer in s.heap
      && (q == s.history.batch[0] ==>
            && (IsIndexed(r, q) <==> Kept(s)) && (IsDeleted(r, q) <==> !Kept(s))
            && Alive(s, q)
            && (Kept(s) ==> Holds(r, q, Again(s, q))))
      && (q != s.history.batch[0] ==>
            && IsIndexed(r, q) == IsIndexed(s, q) && IsDeleted(r, q) == IsDeleted(s, q)
            && (Alive(s, q) ==> Holds(r, q, s.heap[s.history.born[q].addr])))
  {
    Reset1Core(s);
    Reset1Effect(s);
    FirstExpired(s);
    if Kept(s) {
      ReinsertedFate(s, Reset1(s), s.expired[0].timer, q);
    } else {
      FreedFate(s, Reset1(s), s.expired[0].timer, q);
    }
  }

  /** What `Kept` says, in terms of the timer's identity. */
  lemma KeptByIdentity(s: State)
    requires Core(s) && s.expired != []
    ensures |s.history.batch| > 0 && s.expired[0].timer in s.heap
    ensures var q := s.history.batch[0];
      q in s.history.born &&
      (Kept(s) <==> s.history.born[q].repeat && ActiveTimer(s.history.born[q].addr, q) !in s.canceling)
  {}

  lemma BatchTail(s: State)
    requires Core(s) && s.expired != []
    ensures |s.history.batch| > 0
    ensures s.history.batch[0] !in s.history.batch[1..]
    ensures forall q :: q in s.history.batch <==> q == s.history.batch[0] || q in s.history.batch[1..]
    ensures forall q | q in s.history.batch :: q in s.history.born
  {
    BatchDistinct(s);
    assert s.history.batch == [s.history.batch[0]] + s.history.batch[1..];
  }

  lemma ResetLoopTurn(s: State)
    requires Resetting(s) && s.expired != []
    ensures var r := Reset1(s);
      && Resetting(r) && ResetLoop(s) == ResetLoop(r) && |r.expired| < |s.expired|
      && |s.history.batch| > 0 && s.history.batch[0] !in r.history.batch
      && (forall q :: q in s.history.batch <==> q == s.history.batch[0] || q in r.history.batch)
      && (forall q | q in s.history.batch :: q in s.history.born)
  {
    BatchTail(s);
    Reset1Inv(s);
    Reset1Core(s);
  }

  /** reset re-inserts exactly the repeating timers of the batch whose own id was not
      cancelled while the callbacks ran, and deletes exactly the others. */
  lemma {:induction false} ResetLoopFate(s: State, q: nat)
    requires Resetting(s) && q in s.history.batch
    ensures q in s.history.born
    ensures IsIndexed(ResetLoop(s), q) <==>
      s.history.born[q].repeat && ActiveTimer(s.history.born[q].addr, q) !in s.canceling
    ensures IsIndexed(ResetLoop(s), q) <==> !IsDeleted(ResetLoop(s), q)
    ensures Alive(s, q)
    ensures IsIndexed(ResetLoop(s), q) ==> Holds(ResetLoop(s), q, Again(s, q))
    decreases |s.expired|
  {
    assert s.expired != [];
    var r := Reset1(s);
    ResetLoopTurn(s);
    Reset1Fate(s, q);
    if q == s.history.batch[0] {
      KeptByIdentity(s);
      ResetLoopLeavesAlone(r, q);
    } else {
      ResetLoopFate(r, q);
    }
  }

  lemma {:induction false} ResetLoopLeavesAlone(s: State, q: nat)
    requires Resetting(s) && q in s.history.born && q !in s.history.batch
    ensures IsIndexed(ResetLoop(s), q) == IsIndexed(s, q) && IsDeleted(ResetLoop(s), q) == IsDeleted(s, q)
    ensures Alive(s, q) ==> Holds(ResetLoop(s), q, s.heap[s.history.born[q].addr])
    decreases |s.expired|
  {
    if s.expired != [] {
      ResetLoopTurn(s);
      Reset1Fate(s, q);
      ResetLoopLeavesAlone(Reset1(s), q);
    }
  }

  lemma EndEqualsReset(s: State)
    requires Inv(s) && s.calling && s.ran == |s.expired|
    ensures var r := ResetLoop(s.(calling := false, ran := 0)); End(s) == r.(fd := End(s).fd) && !r.calling
  {
    var s1 := s.(calling := false, ran := 0);
    StopCalling(s);
    ResetLoopInv(s1);
    RearmInv(ResetLoop(s1));
  }

  /** The end of handleRead, for every timer of the batch: it is indexed again, due one interval
      after the batch was taken, or deleted. */
  lemma EndOfHandlerFate(s: State, q: nat, r: State)
    requires Reachable(s) && s.calling && s.ran == |s.expired| && q in s.history.batch && r == Step(s, EndRead)
    ensures q in s.history.born && !r.calling
    ensures IsIndexed(r, q) <==>
      s.history.born[q].repeat && ActiveTimer(s.history.born[q].addr, q) !in s.canceling
    ensures IsIndexed(r, q) <==> !IsDeleted(r, q)
    ensures Alive(s, q)
    ensures IsIndexed(r, q) ==> Holds(r, q, Again(s, q))
  {
    ReachableInv(s);
    EndFate(s, q);
  }

  lemma EndFate(s: State, q: nat)
    requires Inv(s) && s.calling && s.ran == |s.expired| && q in s.history.batch
    ensures var r := End(s);
      && q in s.history.born && !r.calling
      && (IsIndexed(r, q) <==> s.history.born[q].repeat && ActiveTimer(s.history.born[q].addr, q) !in s.canceling)
      && (IsIndexed(r, q) <==> !IsDeleted(r, q))
      && Alive(s, q) && (IsIndexed(r, q) ==> Holds(r, q, Again(s, q)))
  {
    EndEqualsReset(s);
    var s1 := s.(calling := false, ran := 0);
    StopCalling(s);
    ResetLoopFate(s1, q);
    FdIrrelevant(ResetLoop(s1), End(s), q);
  }

  lemma FdIrrelevant(s: State, r: State, q: nat)
    requires r == s.(fd := r.fd)
    ensures IsIndexed(r, q) == IsIndexed(s, q) && IsDeleted(r, q) == IsDeleted(s, q)
    ensures Alive(r, q) == Alive(s, q) && r.heap == s.heap && r.history == s.history
  {}

  // ---- adding and cancelling --------------------------------------------------------------

  lemma AddIndexes(s: State, a: Addr)
    requires Core(s) && a in s.queued
    ensures var r := AddTimerInLoop(s, a);
      && r.heap == s.heap && r.history == s.history && IsIndexed(r, s.heap[a].sequence)
      && (forall e :: e in r.timers <==> e in s.timers || e == EntryAt(s, a))
  {
    AddEffect(s, a);
    InsertTimerWorks(s.(queued := s.queued - {a}), a);
  }

  lemma NewIsFresh(s: State, a: Addr, when: int, interval: nat, repeat: bool)
    requires Core(s) && a !in s.heap && 0 < a < UINTPTR_MAX
    ensures var t := NewTimer(s, a, when, interval, repeat);
      && s.created + 1 !in s.history.born && s.created + 1 in t.history.born
      && t.heap == s.heap[a := Timer(when, interval, repeat, s.created + 1)]
      && a in t.queued && t.timers == s.timers && EntryAt(t, a) == Entry(when, a)
  {}

  /** addTimer indexes the timer it was asked for, under a number never used before. */
  lemma AddedAsAsked(s: State, a: Addr, when: int, interval: nat, repeat: bool, r: State)
    requires Reachable(s) && a !in s.heap && 0 < a < UINTPTR_MAX
    requires r == Step(Step(s, User(New(a, when, interval, repeat))), User(Add(a)))
    ensures var q := s.created + 1;
      && q !in s.history.born && q in r.history.born && IsIndexed(r, q)
      && r.heap == s.heap[a := Timer(when, interval, repeat, q)]
      && (forall e :: e in r.timers <==> e in s.timers || e == Entry(when, a))
  {
    ReachableInv(s);
    assert Core(s) && !s.fault;
    AddedFromCore(s, a, when, interval, repeat);
  }

  lemma AddedFromCore(s: State, a: Addr, when: int, interval: nat, repeat: bool)
    requires Core(s) && a !in s.heap && 0 < a < UINTPTR_MAX
    ensures var t := NewTimer(s, a, when, interval, repeat); var r := AddTimerInLoop(t, a); var q := s.created + 1;
      && !t.fault
      && q !in s.history.born && q in r.history.born && IsIndexed(r, q)
      && r.heap == s.heap[a := Timer(when, interval, repeat, q)]
      && (forall e :: e in r.timers <==> e in s.timers || e == Entry(when, a))
  {
    var t := NewTimer(s, a, when, interval, repeat);
    NewCore(s, a, when, interval, repeat);
    NewIsFresh(s, a, when, interval, repeat);
    AddIndexes(t, a);
  }

  /** A whole call of addTimer on the loop thread returns the id of the timer it added. */
  lemma OwnAdd(s: State, a: Addr, when: int, interval: nat, repeat: bool)
    requires Core(s) && a !in s.heap && 0 < a < UINTPTR_MAX
    ensures var q := s.created + 1;
      var r := FinishAdd(AddTimerInLoop(NewTimer(s, a, when, interval, repeat), a), q);
      && q in r.history.found && r.history.found[q] == Got(q) && IsIndexed(r, q)
      && r.heap == s.heap[a := Timer(when, interval, repeat, q)]
      && (forall e :: e in r.timers <==> e in s.timers || e == Entry(when, a))
  {
    var t := NewTimer(s, a, when, interval, repeat);
    AddedFromCore(s, a, when, interval, repeat);
    AddLater(t, a);
  }

  /** Cancelling an indexed timer deletes it at once and takes nothing else out. */
  lemma CancelIndexed(s: State, q: nat, r: State)
    requires Reachable(s) && IsIndexed(s, q)
    requires r == Step(s, User(Cancel(ActiveTimer(s.history.born[q].addr, q))))
    ensures IsDeleted(r, q) && r.heap == s.heap - {s.history.born[q].addr}
    ensures forall e :: e in r.timers <==> e in s.timers && e.timer != s.history.born[q].addr
  {
    ReachableInv(s);
    CancelRemoves(s, ActiveTimer(s.history.born[q].addr, q));
  }

  // ---- firing counts --------------------------------------------------------------------

  /** No timer is run twice in one batch, and a one-shot timer is run at most once ever. */
  lemma FiringCounts(s: State, i: nat, j: nat)
    requires Reachable(s) && i < j < |s.history.log|
    requires s.history.log[i].sequence == s.history.log[j].sequence
    ensures s.history.log[i].round < s.history.log[j].round
    ensures s.history.log[i].sequence in s.history.born && s.history.born[s.history.log[i].sequence].repeat
  {
    ReachableInv(s);
    assert s.history.log[i] in s.history.log;
  }

  // ---- a batch is run to its end ------------------------------------------------------------

  /** Since `s`, a state in which callbacks run: while the same handler is at work its batch is the
      same and what it has passed is in the log; once it has ended the whole batch is. */
  ghost predicate Passed(s: State, r: State) {
    && s.history.log <= r.history.log
    && s.history.round <= r.history.round
    && (r.calling && r.history.round == s.history.round ==>
          && r.history.batch == s.history.batch && |r.expired| == |s.expired| && s.ran <= r.ran <= |s.history.batch|
          && forall i | s.ran <= i < r.ran :: Firing(s.history.round, s.history.batch[i]) in r.history.log)
    && (!(r.calling && r.history.round == s.history.round) ==>
          forall i | s.ran <= i < |s.history.batch| :: Firing(s.history.round, s.history.batch[i]) in r.history.log)
  }

  /** Nothing that `Passed` looks at has changed. */
  ghost predicate SameBatch(r: State, r': State) {
    && r'.calling == r.calling && r'.expired == r.expired && r'.ran == r.ran
    && r'.history.batch == r.history.batch && r'.history.log == r.history.log && r'.history.round == r.history.round
  }

  lemma AddSameBatch(s: State, a: Addr)
    ensures SameBatch(s, AddTimerInLoop(s, a))
  {
    AddLater(s, a);
  }

  lemma DeleteSameBatch(s: State, a: Addr)
    ensures SameBatch(s, Sized(Delete(s, a)))
  {}

  lemma CancelSameBatch(s: State, id: ActiveTimer)
    ensures SameBatch(s, CancelInLoop(s, id))
  {
    var m := Mark(s, id);
    assert SameBatch(s, m);
    if |s.timers| == |s.active| && id in s.active && id.timer in s.heap && EntryAt(s, id.timer) in s.timers {
      DeleteSameBatch(m.(timers := Erase(s.timers, EntryAt(s, id.timer)), active := s.active - {id}), id.timer);
    }
  }

  lemma CallSameBatch(s: State, c: Call)
    ensures SameBatch(s, Perform(s, c))
  {
    match c
    case New(_, _, _, _) =>
    case Add(a) => AddSameBatch(s, a);
    case ReadId(_) =>
    case Cancel(id) => CancelSameBatch(s, id);
    case Tick(_) =>
  }

  lemma Run1Passes(s: State, r: State)
    requires Inv(r) && |s.history.batch| == |s.expired| && Passed(s, r)
    ensures Passed(s, Run1(r))
  {
    if r.calling && r.ran < |r.expired| {
      NextToRun(r);
      assert Firing(r.history.round, r.history.batch[r.ran]) in Run1(r).history.log;
    }
  }

  /** A handler's end adds nothing to the log. */
  lemma {:induction false} ResetLoopLog(s: State)
    requires Resetting(s)
    ensures var r := ResetLoop(s);
      && r.history.log == s.history.log && r.history.round == s.history.round && r.calling == s.calling
      && r.queued == s.queued && r.canceling == s.canceling && r.clock == s.clock && r.fd == s.fd
    decreases |s.expired|
  {
    if s.expired != [] {
      Reset1Inv(s);
      Reset1Core(s);
      ResetLoopLog(Reset1(s));
    }
  }

  lemma EndShape(s: State)
    requires Inv(s) && s.calling && s.ran == |s.expired|
    ensures var r := End(s);
      && r.history.log == s.history.log && r.history.round == s.history.round && !r.calling
      && r.queued == s.queued && r.canceling == s.canceling && r.clock == s.clock
  {
    EndEqualsReset(s);
    StopCalling(s);
    ResetLoopLog(s.(calling := false, ran := 0));
  }

  lemma EndPasses(s: State, r: State)
    requires Inv(r) && |s.history.batch| == |s.expired| && Passed(s, r)
    ensures Passed(s, End(r))
  {
    if r.calling && r.ran == |r.expired| { EndShape(r); }
  }

  lemma BeginPasses(s: State, r: State)
    requires Inv(r) && Passed(s, r)
    ensures Passed(s, Begin(r))
  {
    if !r.calling { BeginSplits(r); }
  }

  lemma StepPasses(s: State, r: State, e: Event)
    requires Inv(r) && |s.history.batch| == |s.expired| && Passed(s, r)
    ensures Passed(s, Step(r, e))
  {
    match e
    case User(c) => CallSameBatch(r, c);
    case BeginRead => BeginPasses(s, r);
    case RunNext => Run1Passes(s, r);
    case EndRead => EndPasses(s, r);
  }

  lemma {:induction false} RunPasses(s: State, es: seq<Event>)
    requires Inv(s) && s.calling
    ensures Passed(s, Run(s, es))
    decreases |es|
  {
    if es != [] {
      RunPasses(s, es[..|es| - 1]);
      RunInv(s, es[..|es| - 1]);
      StepPasses(s, Run(s, es[..|es| - 1]), es[|es| - 1]);
    }
  }

  /** A timer of the current batch whose callback has not been started is run in this round,
      whatever happens in between, even if its id is cancelled. */
  lemma CancelledStillRuns(s: State, i: nat, id: ActiveTimer, es: seq<Event>)
    requires Reachable(s) && s.calling && s.ran <= i < |s.history.batch|
    ensures var r := Run(Step(s, User(Cancel(id))), es);
      !(r.calling && r.history.round == s.history.round && r.ran <= i) ==>
        Firing(s.history.round, s.history.batch[i]) in r.history.log
  {
    ReachableInv(s);
    StepInv(s, User(Cancel(id)));
    CancelSameBatch(s, id);
    RunPasses(Step(s, User(Cancel(id))), es);
  }

  // ---- the timerfd, step by step --------------------------------------------------------------

  /** Armed now for `when`, or for 100us from now if that is later. */
  function ArmedNow(s: State, when: int): TimerFd {
    Armed(s.clock, Max(when, s.clock + 100))
  }

  /** The end of a handler arms the timerfd for exactly the earliest timer left; with none left, or
      one whose expiration is not valid, it leaves the timerfd alone. */
  lemma EndArmsExactly(s: State, r: State)
    requires Reachable(s) && s.calling && s.ran == |s.expired| && r == Step(s, EndRead)
    ensures r.fd == if r.timers != [] && 0 < r.timers[0].when then ArmedNow(s, r.timers[0].when) else s.fd
    ensures r.clock == s.clock
  {
    ReachableInv(s);
    EndArms(s);
  }

  lemma EndArms(s: State)
    requires Inv(s) && s.calling && s.ran == |s.expired|
    ensures var r := End(s);
      r.clock == s.clock && r.fd == if r.timers != [] && 0 < r.timers[0].when then ArmedNow(s, r.timers[0].when) else s.fd
  {
    EndIsRearm(s);
    RearmExact(ResetLoop(s.(calling := false, ran := 0)));
  }

  lemma EndIsRearm(s: State)
    requires Inv(s) && s.calling && s.ran == |s.expired|
    ensures var r := ResetLoop(s.(calling := false, ran := 0));
      Core(r) && End(s) == Rearm(r) && r.fd == s.fd && r.clock == s.clock
  {
    var s1 := s.(calling := false, ran := 0);
    StopCalling(s);
    ResetLoopInv(s1);
    ResetLoopLog(s1);
  }

  lemma RearmExact(r: State)
    requires Core(r)
    ensures var t := Rearm(r);
      && t == r.(fd := t.fd)
      && t.fd == if r.timers != [] && 0 < r.timers[0].when then ArmedNow(r, r.timers[0].when) else r.fd
  {
    assert r.timers != [] ==> r.timers[0] in r.timers;
  }

  /** Adding a timer arms the timerfd for it exactly when it becomes the earliest. */
  lemma AddArmsExactly(s: State, a: Addr, r: State)
    requires Reachable(s) && a in s.queued && r == Step(s, User(Add(a)))
    ensures a in s.heap && r.clock == s.clock
    ensures r.fd ==
      if s.timers == [] || s.heap[a].expiration < s.timers[0].when then ArmedNow(s, s.heap[a].expiration) else s.fd
  {
    ReachableInv(s);
    AddEffect(s, a);
  }

  /** The beginning of a handler reads the timerfd, so that it is no longer ready; time makes it
      ready exactly when its deadline is reached; nothing else touches it or the clock. */
  lemma FdOtherwise(s: State, e: Event, r: State)
    requires Reachable(s) && r == Step(s, e) && e != EndRead && !(e.User? && e.call.Add?)
    ensures e == BeginRead && !s.calling ==> r.fd == (if s.fd == Fired then Disarmed else s.fd)
    ensures e.User? && e.call.Tick? ==>
      && r.clock == s.clock + e.call.elapsed
      && r.fd == (if s.fd.Armed? && s.fd.target <= r.clock then Fired else s.fd)
    ensures !(e.User? && e.call.Tick?) ==> r.clock == s.clock
    ensures !(e.User? && e.call.Tick?) && !(e == BeginRead && !s.calling) ==> r.fd == s.fd
  {
    ReachableInv(s);
    match e
    case User(c) => if c.Cancel? { CancelKeepsFd(s, c.id); }
    case BeginRead => if !s.calling { BeginFd(s); }
    case RunNext =>
    case EndRead =>
  }

  lemma CancelKeepsFd(s: State, id: ActiveTimer)
    requires Inv(s)
    ensures CancelInLoop(s, id).fd == s.fd && CancelInLoop(s, id).clock == s.clock
  {
    if id in s.active { CancelRemoves(s, id); } else { MissShape(s, id); }
  }

  lemma BeginFd(s: State)
    requires Inv(s) && !s.calling
    ensures Begin(s).fd == ReadTimerfd(s.fd) && Begin(s).clock == s.clock
  {
    var s1 := s.(fd := ReadTimerfd(s.fd));
    FdChangeCore(s, s1.fd);
    GetExpiredSplits(s1, s.clock);
  }
}
