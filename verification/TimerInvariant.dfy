/** The invariant of the timer queue and its preservation by every step. */
module TimerInvariant {
  import opened Numbers
  import opened TimerEntries
  import opened TimerModel

  // ---- Who owns a timer ---------------------------------------------------------------

  ghost predicate Alive(s: State, q: nat) {
    q in s.history.born && s.history.born[q].addr in s.heap && s.heap[s.history.born[q].addr].sequence == q
  }

  /** Timer `q` waits for its addTimerInLoop. */
  ghost predicate IsQueued(s: State, q: nat) {
    Alive(s, q) && s.history.born[q].addr in s.queued
  }

  /** Timer `q` is in both ordered sets, under its current expiration and its own number. */
  ghost predicate IsIndexed(s: State, q: nat) {
    && Alive(s, q)
    && EntryAt(s, s.history.born[q].addr) in s.timers
    && ActiveTimer(s.history.born[q].addr, q) in s.active
  }

  /** Timer `q` is in the batch that handleRead holds. */
  ghost predicate IsExpired(s: State, q: nat) {
    && Alive(s, q)
    && q in s.history.batch
    && exists i | 0 <= i < |s.expired| :: s.expired[i].timer == s.history.born[q].addr
  }

  ghost predicate IsDeleted(s: State, q: nat) {
    q in s.history.deleted
  }

  // ---- The invariant ------------------------------------------------------------------

  /** Live timers carry their own number, were born where they are and are not deleted. */
  ghost predicate HeapOk(s: State) {
    && (forall q :: q in s.history.born <==> 1 <= q <= s.created)
    && (forall a | a in s.heap ::
          && 0 < a < UINTPTR_MAX
          && s.heap[a].sequence in s.history.born
          && s.history.born[s.heap[a].sequence] == Birth(a, s.heap[a].repeat)
          && s.heap[a].sequence !in s.history.deleted)
    && (forall q | q in s.history.born :: q in s.history.deleted || Alive(s, q))
    && (forall q | q in s.history.deleted :: q in s.history.born)
  }

  /** `timers_` and `activeTimers_` describe the same timers, under current keys. */
  ghost predicate IndexOk(s: State) {
    && Sorted(s.timers)
    && |s.timers| == |s.active|
    && (forall e | e in s.timers :: e.timer in s.heap && e == EntryAt(s, e.timer) && IdAt(s, e.timer) in s.active)
    && (forall id | id in s.active :: id.timer in s.heap && id == IdAt(s, id.timer) && EntryAt(s, id.timer) in s.timers)
  }

  /** The expired batch is live, repetition free and outside both sets. */
  ghost predicate BatchOk(s: State) {
    && |s.history.batch| == |s.expired|
    && (forall i | 0 <= i < |s.expired| ::
          && s.expired[i].timer in s.heap
          && s.heap[s.expired[i].timer].sequence == s.history.batch[i]
          && s.expired[i].timer !in s.queued
          && EntryAt(s, s.expired[i].timer) !in s.timers)
    && (forall i, j | 0 <= i < j < |s.expired| :: s.expired[i].timer != s.expired[j].timer)
  }

  ghost predicate Owned(s: State, a: Addr)
    requires a in s.heap
  {
    a in s.queued || EntryAt(s, a) in s.timers || s.heap[a].sequence in s.history.batch
  }

  ghost predicate OwnershipOk(s: State) {
    && s.queued <= s.heap.Keys
    && (forall a | a in s.queued :: EntryAt(s, a) !in s.timers)
    && (forall a | a in s.heap :: Owned(s, a))
  }

  ghost predicate Core(s: State) {
    !s.fault && HeapOk(s) && IndexOk(s) && BatchOk(s) && OwnershipOk(s)
  }

  /** The timerfd will report, or has reported, an expiry in time for the earliest timer. */
  ghost predicate ArmedFor(s: State, when: int) {
    || s.fd.Fired?
    || (s.fd.Armed? && s.fd.setAt <= s.clock < s.fd.target <= Max(when, s.fd.setAt + 100))
  }

  /** What holds of the timerfd while handleRead is under way: only a timer with a
      non-positive expiration, for which reset will not arm the timerfd, needs it armed. */
  ghost predicate FdLoose(s: State) {
    && 0 < s.clock
    && (s.timers != [] && s.timers[0].when <= 0 ==> ArmedFor(s, s.timers[0].when))
  }

  ghost predicate FdOk(s: State) {
    && FdLoose(s)
    && (s.calling ==> 0 < s.now <= s.clock)
    && (!s.calling && s.timers != [] ==> ArmedFor(s, s.timers[0].when))
  }

  /** A cancelled timer is gone, or is in the batch and marked for deletion. */
  ghost predicate CancelOk(s: State) {
    forall q | q in s.history.cancelled ::
      && q in s.history.born
      && (q in s.history.deleted ||
          (q in s.history.batch && ActiveTimer(s.history.born[q].addr, q) in s.canceling))
  }

  /** Every firing in the log, and how later ones relate to it. */
  ghost predicate LogOk(s: State) {
    var h := s.history;
    && (forall f | f in h.log :: f.round <= h.round && f.sequence in h.born)
    && (forall f | f in h.log && f.round == h.round && s.calling ::
          s.ran <= |h.batch| && f.sequence in h.batch[..s.ran])
    && (forall f | f in h.log && !h.born[f.sequence].repeat ::
          f.sequence in h.deleted || (f.round == h.round && f.sequence in h.batch))
    && (forall i, j | 0 <= i < j < |h.log| && h.log[i].sequence == h.log[j].sequence ::
          h.log[i].round < h.log[j].round && h.born[h.log[i].sequence].repeat)
  }

  ghost predicate Inv(s: State) {
    && Core(s)
    && FdOk(s)
    && CancelOk(s)
    && LogOk(s)
    && s.ran <= |s.expired|
    && (!s.calling ==> s.expired == [])
  }

  lemma InitInv(clock: int)
    requires 0 < clock
    ensures Inv(Init(clock))
  {}

  // ---- insert -------------------------------------------------------------------------

  /** A live timer outside both sets and outside the queue goes in without a failed assertion. */
  lemma InsertTimerWorks(s: State, a: Addr)
    requires !s.fault && IndexOk(s) && a in s.heap && EntryAt(s, a) !in s.timers
    ensures var r := InsertTimer(s, a);
      && !r.fault && IndexOk(r)
      && r == s.(timers := r.timers, active := r.active)
      && (forall x :: x in r.timers <==> x in s.timers || x == EntryAt(s, a))
      && r.active == s.active + {IdAt(s, a)}
      && r.timers != []
      && r.timers[0] == if s.timers == [] || Less(EntryAt(s, a), s.timers[0]) then EntryAt(s, a) else s.timers[0]
  {
    InsertKeepsSet(s.timers, EntryAt(s, a));
    assert IdAt(s, a) !in s.active;
  }

  /** Timer `a` has joined both sets and everything else is as before. */
  lemma InsertedCore(s: State, r: State, a: Addr)
    requires HeapOk(s) && BatchOk(s) && !r.fault && IndexOk(r)
    requires r == s.(timers := r.timers, active := r.active)
    requires s.queued <= s.heap.Keys && (forall b | b in s.queued :: EntryAt(s, b) !in s.timers)
    requires forall b | b in s.heap && b != a :: Owned(s, b)
    requires a in s.heap && a !in s.queued && s.heap[a].sequence !in s.history.batch
    requires forall x :: x in r.timers <==> x in s.timers || x == EntryAt(s, a)
    ensures Core(r)
  {
    assert forall i | 0 <= i < |s.expired| :: s.expired[i].timer != a;
    assert BatchOk(r);
    assert HeapOk(r) by {
      assert forall q :: Alive(s, q) ==> Alive(r, q);
    }
    assert forall b | b in s.heap && b != a :: Owned(s, b) ==> Owned(r, b);
  }

  lemma InsertCore(s: State, a: Addr)
    requires !s.fault && HeapOk(s) && IndexOk(s) && BatchOk(s)
    requires s.queued <= s.heap.Keys && (forall b | b in s.queued :: EntryAt(s, b) !in s.timers)
    requires forall b | b in s.heap && b != a :: Owned(s, b)
    requires a in s.heap && a !in s.queued && EntryAt(s, a) !in s.timers && s.heap[a].sequence !in s.history.batch
    ensures Core(InsertTimer(s, a))
  {
    InsertTimerWorks(s, a);
    InsertedCore(s, InsertTimer(s, a), a);
  }

  // ---- frames -------------------------------------------------------------------------

  /** Core looks at these fields only. */
  lemma CoreFrame(s: State, r: State)
    requires Core(s) && !r.fault
    requires r.heap == s.heap && r.created == s.created && r.queued == s.queued
    requires r.timers == s.timers && r.active == s.active && r.expired == s.expired
    requires r.history.born == s.history.born && r.history.deleted == s.history.deleted
    requires r.history.batch == s.history.batch
    ensures Core(r)
  {
    assert forall b | b in s.heap :: Owned(s, b) ==> Owned(r, b);
    assert forall q :: Alive(s, q) ==> Alive(r, q);
  }

  lemma LogFrame(s: State, r: State)
    requires LogOk(s)
    requires r.history.log == s.history.log && r.history.round == s.history.round
    requires r.history.batch == s.history.batch && r.calling == s.calling && r.ran == s.ran
    requires forall q | q in s.history.born :: q in r.history.born && r.history.born[q] == s.history.born[q]
    requires s.history.deleted <= r.history.deleted
    ensures LogOk(r)
  {}

  // ---- user calls ---------------------------------------------------------------------

  lemma NewHeap(s: State, a: Addr, when: int, interval: nat, repeat: bool)
    requires HeapOk(s)
    ensures HeapOk(NewTimer(s, a, when, interval, repeat))
  {
    var r := NewTimer(s, a, when, interval, repeat);
    if r != s {
      assert forall q | q in s.history.born :: Alive(s, q) ==> Alive(r, q);
      assert Alive(r, r.created);
    }
  }

  lemma NewCore(s: State, a: Addr, when: int, interval: nat, repeat: bool)
    requires Core(s)
    ensures Core(NewTimer(s, a, when, interval, repeat))
  {
    var r := NewTimer(s, a, when, interval, repeat);
    NewHeap(s, a, when, interval, repeat);
    if r != s {
      assert forall b | b in s.heap :: b in r.heap && r.heap[b] == s.heap[b];
      assert IndexOk(r);
      assert BatchOk(r);
      assert forall b | b in s.heap :: Owned(s, b) ==> Owned(r, b);
    }
  }

  lemma NewInv(s: State, a: Addr, when: int, interval: nat, repeat: bool)
    requires Inv(s)
    ensures Inv(NewTimer(s, a, when, interval, repeat))
  {
    NewCore(s, a, when, interval, repeat);
    LogFrame(s, NewTimer(s, a, when, interval, repeat));
  }

  lemma FinishAddInv(s: State, q: nat)
    requires Inv(s)
    ensures Inv(FinishAdd(s, q))
  {
    var r := FinishAdd(s, q);
    CoreFrame(s, r);
    LogFrame(s, r);
  }

  /** Distinct batch positions hold distinct timers, none of them queued. */
  lemma QueuedNotInBatch(s: State, a: Addr)
    requires Core(s) && a in s.queued
    ensures s.heap[a].sequence !in s.history.batch
  {}

  lemma DequeueThenInsert(s: State, a: Addr)
    requires Core(s) && a in s.queued
    ensures Core(InsertTimer(s.(queued := s.queued - {a}), a))
  {
    var s1 := s.(queued := s.queued - {a});
    assert forall b | b in s.heap && b != a :: Owned(s, b) ==> Owned(s1, b);
    assert forall q :: Alive(s, q) ==> Alive(s1, q);
    QueuedNotInBatch(s, a);
    InsertCore(s1, a);
  }

  lemma AddEffect(s: State, a: Addr)
    requires !s.fault && IndexOk(s) && a in s.queued && a in s.heap && EntryAt(s, a) !in s.timers
    ensures var r := AddTimerInLoop(s, a);
      && r == InsertTimer(s.(queued := s.queued - {a}), a).(fd := r.fd)
      && r == s.(queued := s.queued - {a}, timers := r.timers, active := r.active, fd := r.fd)
      && r.timers != []
      && r.fd == (if EarliestChanged(s, s.heap[a].expiration) then ResetTimerfd(s, s.heap[a].expiration).fd else s.fd)
  {
    InsertTimerWorks(s.(queued := s.queued - {a}), a);
  }

  /** Which entry is first afterwards. */
  lemma AddFirst(s: State, a: Addr)
    requires !s.fault && IndexOk(s) && a in s.queued && a in s.heap && EntryAt(s, a) !in s.timers
    ensures var r := AddTimerInLoop(s, a); var when := s.heap[a].expiration;
      && r.timers != []
      && if EarliestChanged(s, when) then r.timers[0].when == when
         else s.timers != [] && r.timers[0].when == s.timers[0].when
  {
    AddEffect(s, a);
    InsertTimerWorks(s.(queued := s.queued - {a}), a);
  }

  lemma FdChangeCore(s: State, fd: TimerFd)
    requires Core(s)
    ensures Core(s.(fd := fd))
  {
    CoreFrame(s, s.(fd := fd));
  }

  lemma AddInv(s: State, a: Addr)
    requires Inv(s)
    ensures Inv(AddTimerInLoop(s, a))
  {
    if a in s.queued {
      var r := AddTimerInLoop(s, a);
      DequeueThenInsert(s, a);
      AddEffect(s, a);
      AddFirst(s, a);
      FdChangeCore(InsertTimer(s.(queued := s.queued - {a}), a), r.fd);
      AddFd(s, r, s.heap[a].expiration);
      LogFrame(s, r);
    }
  }

  /** A timer that becomes the earliest is armed for; otherwise the earliest is as before. */
  lemma AddFd(s: State, r: State, when: int)
    requires FdOk(s) && r.clock == s.clock && r.calling == s.calling && r.now == s.now && r.timers != []
    requires if EarliestChanged(s, when)
             then r.fd == ResetTimerfd(s, when).fd && r.timers[0].when == when
             else r.fd == s.fd && s.timers != [] && r.timers[0].when == s.timers[0].when
    ensures FdOk(r)
  {}

  /** Timer `a` leaves both sets and the heap. */
  ghost predicate Removed(s: State, r: State, a: Addr) {
    && a in s.heap
    && r.fault == s.fault && r.created == s.created && r.queued == s.queued && r.expired == s.expired
    && r.heap == s.heap - {a}
    && Sorted(r.timers) && |r.timers| == |r.active|
    && (forall x :: x in r.timers <==> x in s.timers && x != EntryAt(s, a))
    && r.active == s.active - {IdAt(s, a)}
    && r.history.born == s.history.born && r.history.batch == s.history.batch
    && r.history.deleted == s.history.deleted + {s.heap[a].sequence}
  }

  lemma RemovedHeap(s: State, r: State, a: Addr)
    requires HeapOk(s) && Removed(s, r, a)
    ensures HeapOk(r)
  {
    forall q | q in r.history.born
      ensures q in r.history.deleted || Alive(r, q)
    {
      assert q in s.history.deleted || Alive(s, q);
    }
  }

  lemma RemovedIndex(s: State, r: State, a: Addr)
    requires IndexOk(s) && Removed(s, r, a)
    ensures IndexOk(r)
  {}

  lemma RemovedCore(s: State, r: State, a: Addr)
    requires Core(s) && Removed(s, r, a) && EntryAt(s, a) in s.timers
    ensures Core(r)
  {
    RemovedHeap(s, r, a);
    RemovedIndex(s, r, a);
    assert forall i | 0 <= i < |s.expired| :: s.expired[i].timer != a;
    assert forall b | b in r.heap :: Owned(s, b) ==> Owned(r, b);
  }

  lemma CancelRemoves(s: State, id: ActiveTimer)
    requires Core(s) && id in s.active
    ensures var r := CancelInLoop(s, id);
      && Removed(s, r, id.timer)
      && r.timers == Erase(s.timers, EntryAt(s, id.timer))
      && r.history.cancelled <= s.history.cancelled + {id.sequence}
      && r.canceling == s.canceling && r.fd == s.fd && r.clock == s.clock
      && r.calling == s.calling && r.now == s.now && r.ran == s.ran
      && r.history.log == s.history.log && r.history.round == s.history.round
  {
    EraseKeepsSet(s.timers, EntryAt(s, id.timer));
  }

  lemma CancelHit(s: State, id: ActiveTimer)
    requires Inv(s) && id in s.active
    ensures Inv(CancelInLoop(s, id))
  {
    var r := CancelInLoop(s, id);
    CancelRemoves(s, id);
    RemovedCore(s, r, id.timer);
    EraseFd(s, r, EntryAt(s, id.timer));
    LogFrame(s, r);
  }

  lemma CancelInv(s: State, id: ActiveTimer)
    requires Inv(s)
    ensures Inv(CancelInLoop(s, id))
  {
    if id in s.active {
      CancelHit(s, id);
    } else {
      MissShape(s, id);
      CancelMisses(s, id);
      LogFrame(s, CancelInLoop(s, id));
    }
  }

  lemma EraseFd(s: State, r: State, e: Entry)
    requires FdOk(s) && r.clock == s.clock && r.calling == s.calling && r.now == s.now && r.fd == s.fd
    requires Sorted(s.timers) && e in s.timers && r.timers == Erase(s.timers, e)
    ensures FdOk(r)
  {
    EraseKeepsSet(s.timers, e);
  }

  /** The branches of cancelInLoop that do not find the timer. */
  lemma MissShape(s: State, id: ActiveTimer)
    requires |s.timers| == |s.active| && id !in s.active
    ensures var r := CancelInLoop(s, id);
      && r == s.(canceling := r.canceling, history := s.history.(cancelled := r.history.cancelled))
      && r.history.cancelled == s.history.cancelled + (if Added(s, id) then {id.sequence} else {})
      && r.canceling == s.canceling + (if s.calling then {id} else {})
  {}

  lemma MissCancelOk(s: State, r: State, id: ActiveTimer)
    requires Core(s) && CancelOk(s) && id !in s.active && (!s.calling ==> s.expired == [])
    requires r == s.(canceling := r.canceling, history := s.history.(cancelled := r.history.cancelled))
    requires r.history.cancelled == s.history.cancelled + (if Added(s, id) then {id.sequence} else {})
    requires r.canceling == s.canceling + (if s.calling then {id} else {})
    ensures CancelOk(r)
  {
    if Added(s, id) && id.sequence !in s.history.deleted {
      assert Alive(s, id.sequence) && Owned(s, id.timer);
    }
  }

  lemma CancelMisses(s: State, id: ActiveTimer)
    requires Inv(s) && id !in s.active
    ensures Core(CancelInLoop(s, id)) && CancelOk(CancelInLoop(s, id))
  {
    MissShape(s, id);
    CoreFrame(s, CancelInLoop(s, id));
    MissCancelOk(s, CancelInLoop(s, id), id);
  }

  lemma PassInv(s: State, elapsed: nat)
    requires Inv(s)
    ensures Inv(Pass(s, elapsed))
  {
    var r := Pass(s, elapsed);
    CoreFrame(s, r);
    LogFrame(s, r);
  }

  // ---- handleRead: collecting the batch -------------------------------------------------

  /** The pairs under which the timers at `es` stand in `activeTimers_`. */
  ghost function Ids(s: State, es: seq<Entry>): set<ActiveTimer>
    decreases |es|
  {
    if es == [] then {}
    else (if es[0].timer in s.heap then {IdAt(s, es[0].timer)} else {}) + Ids(s, es[1..])
  }

  lemma {:induction false} IdsMembers(s: State, es: seq<Entry>)
    requires forall i | 0 <= i < |es| :: es[i].timer in s.heap
    ensures forall i | 0 <= i < |es| :: IdAt(s, es[i].timer) in Ids(s, es)
    ensures forall id | id in Ids(s, es) :: exists i :: 0 <= i < |es| && id == IdAt(s, es[i].timer)
    decreases |es|
  {
    if es != [] {
      assert forall i | 0 <= i < |es[1..]| :: es[1..][i] == es[i + 1];
      IdsMembers(s, es[1..]);
      forall i | 0 <= i < |es|
        ensures IdAt(s, es[i].timer) in Ids(s, es)
      {
        assert i == 0 || es[i] == es[1..][i - 1];
      }
      forall id | id in Ids(s, es)
        ensures exists i :: 0 <= i < |es| && id == IdAt(s, es[i].timer)
      {
        if id == IdAt(s, es[0].timer) {
        } else {
          var i :| 0 <= i < |es[1..]| && id == IdAt(s, es[1..][i].timer);
          assert id == IdAt(s, es[i + 1].timer);
        }
      }
    }
  }

  lemma {:induction false} IdsSameHeap(s: State, r: State, es: seq<Entry>)
    requires s.heap == r.heap
    ensures Ids(s, es) == Ids(r, es)
    decreases |es|
  {
    if es != [] { IdsSameHeap(s, r, es[1..]); }
  }

  /** The loop of getExpired finds every expired timer in `activeTimers_`. */
  lemma {:induction false} EraseActiveWorks(s: State, es: seq<Entry>)
    requires !s.fault
    requires forall i | 0 <= i < |es| :: es[i].timer in s.heap && IdAt(s, es[i].timer) in s.active
    requires forall i, j | 0 <= i < j < |es| :: es[i].timer != es[j].timer
    ensures EraseActive(s, es) == s.(active := s.active - Ids(s, es))
    ensures |s.active - Ids(s, es)| == |s.active| - |es|
    decreases |es|
  {
    if es == [] {
      assert s.active - Ids(s, es) == s.active;
    } else {
      var id := IdAt(s, es[0].timer);
      var s' := s.(active := s.active - {id});
      assert forall i | 0 <= i < |es[1..]| :: es[1..][i] == es[i + 1];
      EraseActiveWorks(s', es[1..]);
      IdsSameHeap(s, s', es[1..]);
      assert s.active - Ids(s, es) == s'.active - Ids(s', es[1..]);
    }
  }

  /** `timers_` is live, under current keys and free of repetitions. */
  lemma TimersByIndex(s: State)
    requires IndexOk(s)
    ensures forall i | 0 <= i < |s.timers| ::
      && s.timers[i].timer in s.heap && s.timers[i] == EntryAt(s, s.timers[i].timer)
      && IdAt(s, s.timers[i].timer) in s.active
    ensures forall i, j | 0 <= i < j < |s.timers| :: s.timers[i].timer != s.timers[j].timer
  {
    forall i | 0 <= i < |s.timers|
      ensures
        && s.timers[i].timer in s.heap && s.timers[i] == EntryAt(s, s.timers[i].timer)
        && IdAt(s, s.timers[i].timer) in s.active
    {
      assert s.timers[i] in s.timers;
    }
    forall i, j | 0 <= i < j < |s.timers|
      ensures s.timers[i].timer != s.timers[j].timer
    {
      assert Less(s.timers[i], s.timers[j]);
    }
  }

  /** getExpired takes exactly the timers due at `now`, in order, and leaves exactly the rest. */
  lemma GetExpiredSplits(s: State, now: int)
    requires Core(s) && s.expired == []
    ensures var r := GetExpired(s, now); var k := |r.expired|;
      && k <= |s.timers| && r.expired == s.timers[..k] && r.timers == s.timers[k..]
      && r == s.(timers := r.timers, active := s.active - Ids(s, r.expired), now := now, expired := r.expired,
                 history := s.history.(batch := Sequences(s, r.expired)))
      && |r.timers| == |r.active|
      && (forall i | 0 <= i < k :: s.timers[i].when <= now)
      && (forall i | k <= i < |s.timers| :: now < s.timers[i].when)
  {
    var k := LowerBound(s.timers, Entry(now, UINTPTR_MAX));
    DueTimersBelowMax(s);
    SplitAtNow(s.timers, now);
    TimersByIndex(s);
    var due := s.timers[..k];
    var s' := s.(timers := s.timers[k..], now := now, expired := due,
                 history := s.history.(batch := Sequences(s, due)));
    IdsSameHeap(s, s', due);
    EraseActiveWorks(s', due);
  }

  lemma DueTimersBelowMax(s: State)
    requires Core(s)
    ensures forall e | e in s.timers :: e.timer < UINTPTR_MAX
  {}

  lemma GetExpiredIndex(s: State, now: int)
    requires Core(s) && s.expired == []
    ensures var r := GetExpired(s, now);
      && IndexOk(r)
      && (forall i, j | 0 <= i < j < |r.expired| :: r.expired[i].timer != r.expired[j].timer)
      && (forall i | 0 <= i < |r.expired| :: r.expired[i] in s.timers && r.expired[i] !in r.timers)
  {
    GetExpiredSplits(s, now);
    var r := GetExpired(s, now);
    SplitIndex(s, r, |r.expired|);
    TimersByIndex(s);
    SplitDisjoint(s.timers, |r.expired|);
  }

  lemma SplitIndex(s: State, r: State, k: nat)
    requires IndexOk(s) && k <= |s.timers|
    requires r.expired == s.timers[..k] && r.timers == s.timers[k..] && r.heap == s.heap
    requires r.active == s.active - Ids(s, s.timers[..k]) && |r.timers| == |r.active|
    ensures IndexOk(r)
  {
    TimersByIndex(s);
    SplitTimers(s, r, k);
    SplitActive(s, r, k);
  }

  lemma SplitDisjoint(ts: seq<Entry>, k: nat)
    requires Sorted(ts) && k <= |ts|
    ensures forall i | 0 <= i < k :: ts[..k][i] in ts && ts[..k][i] !in ts[k..]
  {
    assert forall j | 0 <= j < |ts[k..]| :: ts[k..][j] == ts[k + j];
  }

  lemma SplitTimers(s: State, r: State, k: nat)
    requires k <= |s.timers|
    requires forall i | 0 <= i < |s.timers| ::
      && s.timers[i].timer in s.heap && s.timers[i] == EntryAt(s, s.timers[i].timer)
      && IdAt(s, s.timers[i].timer) in s.active
    requires forall i, j | 0 <= i < j < |s.timers| :: s.timers[i].timer != s.timers[j].timer
    requires r.timers == s.timers[k..] && r.heap == s.heap && r.active == s.active - Ids(s, s.timers[..k])
    ensures forall e | e in r.timers :: e.timer in r.heap && e == EntryAt(r, e.timer) && IdAt(r, e.timer) in r.active
  {
    var due := s.timers[..k];
    IdsMembers(s, due);
    forall e | e in r.timers
      ensures e.timer in r.heap && e == EntryAt(r, e.timer) && IdAt(r, e.timer) in r.active
    {
      var j :| 0 <= j < |r.timers| && r.timers[j] == e;
      assert e == s.timers[k + j];
      assert forall i | 0 <= i < k :: due[i].timer != e.timer;
    }
  }

  lemma SplitActive(s: State, r: State, k: nat)
    requires k <= |s.timers|
    requires forall id | id in s.active :: id.timer in s.heap && id == IdAt(s, id.timer) && EntryAt(s, id.timer) in s.timers
    requires forall i | 0 <= i < |s.timers| :: s.timers[i].timer in s.heap
    requires r.timers == s.timers[k..] && r.heap == s.heap && r.active == s.active - Ids(s, s.timers[..k])
    ensures forall id | id in r.active :: id.timer in r.heap && id == IdAt(r, id.timer) && EntryAt(r, id.timer) in r.timers
  {
    var due := s.timers[..k];
    IdsMembers(s, due);
    assert forall i | 0 <= i < k :: s.timers[i] == due[i];
    forall id | id in r.active
      ensures id.timer in r.heap && id == IdAt(r, id.timer) && EntryAt(r, id.timer) in r.timers
    {
      var i :| 0 <= i < |s.timers| && s.timers[i] == EntryAt(s, id.timer);
      assert k <= i;
      assert r.timers[i - k] == s.timers[i];
    }
  }

  lemma SplitOwnership(s: State, r: State, k: nat)
    requires Core(s) && s.expired == [] && k <= |s.timers|
    requires r.expired == s.timers[..k] && r.timers == s.timers[k..] && r.heap == s.heap && r.queued == s.queued
    requires r.history.batch == Sequences(s, r.expired)
    requires forall i | 0 <= i < k :: r.expired[i] !in r.timers
    requires forall i, j | 0 <= i < j < k :: r.expired[i].timer != r.expired[j].timer
    ensures BatchOk(r) && OwnershipOk(r)
  {
    TimersByIndex(s);
    TakeDrop(s.timers, k);
    forall a | a in r.heap
      ensures Owned(r, a)
    {
      assert Owned(s, a);
      if EntryAt(s, a) in r.expired {
        var i :| 0 <= i < |r.expired| && r.expired[i] == EntryAt(s, a);
        assert r.history.batch[i] == s.heap[a].sequence;
      }
    }
  }

  lemma GetExpiredCore(s: State, now: int)
    requires Core(s) && s.expired == []
    ensures Core(GetExpired(s, now))
  {
    GetExpiredSplits(s, now);
    GetExpiredIndex(s, now);
    var r := GetExpired(s, now);
    SplitOwnership(s, r, |r.expired|);
    assert HeapOk(r) by {
      assert forall q :: Alive(s, q) ==> Alive(r, q);
    }
  }

  lemma BeginInv(s: State)
    requires Inv(s)
    ensures Inv(Begin(s))
  {
    if !s.calling {
      var s1 := s.(fd := ReadTimerfd(s.fd));
      FdChangeCore(s, s1.fd);
      GetExpiredSplits(s1, s.clock);
      GetExpiredCore(s1, s.clock);
      var r := GetExpired(s1, s.clock);
      var t := Begin(s);
      BeginFrame(r, t);
      BeginRest(s, t);
    }
  }

  /** The part of the invariant about the timerfd and the history, at the start of a handler. */
  lemma BeginRest(s: State, t: State)
    requires FdOk(s) && CancelOk(s) && LogOk(s) && s.history.batch == [] && !s.calling
    requires t.calling && t.clock == t.now == s.clock && t.ran == 0
    requires t.timers != [] ==> s.clock < t.timers[0].when
    requires t.history == s.history.(batch := t.history.batch, round := s.history.round + 1)
    ensures FdOk(t) && CancelOk(t) && LogOk(t)
  {}

  /** Flags and counters that no part of `Core` looks at. */
  lemma BeginFrame(r: State, t: State)
    requires Core(r)
    requires t == r.(calling := t.calling, canceling := t.canceling, ran := t.ran,
                     history := r.history.(round := t.history.round, log := t.history.log))
    ensures Core(t)
  {
    CoreFrame(r, t);
  }

  // ---- handleRead: running a callback ---------------------------------------------------

  lemma BatchDistinct(s: State)
    requires Core(s)
    ensures forall i, j | 0 <= i < j < |s.history.batch| :: s.history.batch[i] != s.history.batch[j]
  {
    forall i, j | 0 <= i < j < |s.history.batch|
      ensures s.history.batch[i] != s.history.batch[j]
    {
      assert s.expired[i].timer != s.expired[j].timer;
    }
  }

  /** The timer whose callback comes next. */
  lemma NextToRun(s: State)
    requires Core(s) && s.ran < |s.expired|
    ensures |s.history.batch| == |s.expired|
    ensures var q := s.history.batch[s.ran]; var a := s.expired[s.ran].timer;
      && a in s.heap && s.heap[a].sequence == q
      && q in s.history.born && q !in s.history.deleted && q !in s.history.batch[..s.ran]
  {
    BatchDistinct(s);
  }

  lemma Run1Inv(s: State)
    requires Inv(s)
    ensures Inv(Run1(s))
  {
    if s.calling && s.ran < |s.expired| {
      NextToRun(s);
      BeginFrame(s, Run1(s));
      Run1Log(s, Run1(s), s.history.batch[s.ran]);
    }
  }

  lemma Run1Log(s: State, r: State, q: nat)
    requires LogOk(s) && s.calling && s.ran < |s.history.batch|
    requires q == s.history.batch[s.ran] && q !in s.history.batch[..s.ran]
    requires q in s.history.born && q !in s.history.deleted
    requires r == s.(ran := s.ran + 1, history := s.history.(log := s.history.log + [Firing(s.history.round, q)]))
    ensures LogOk(r)
  {
    var h := r.history;
    assert h.batch[..s.ran + 1] == h.batch[..s.ran] + [q];
    forall i, j | 0 <= i < j < |h.log| && h.log[i].sequence == h.log[j].sequence
      ensures h.log[i].round < h.log[j].round && h.born[h.log[i].sequence].repeat
    {
      assert h.log[i] in s.history.log;
    }
  }

  // ---- handleRead: reset ----------------------------------------------------------------

  /** What reset's loop keeps. */
  ghost predicate Resetting(s: State) {
    Core(s) && FdLoose(s) && 0 < s.now <= s.clock && CancelOk(s) && LogOk(s) && !s.calling && s.ran == 0
  }

  /** The first expired timer, taken out of the batch but not yet disposed of. */
  function Popped(s: State): State
    requires s.expired != [] && |s.history.batch| == |s.expired|
  {
    s.(expired := s.expired[1..], history := s.history.(batch := s.history.batch[1..]))
  }

  lemma PopOwnership(s: State)
    requires Core(s) && s.expired != []
    ensures var a := s.expired[0].timer; var p := Popped(s);
      && a in s.heap && a !in s.queued && EntryAt(s, a) !in s.timers
      && HeapOk(p) && IndexOk(p) && BatchOk(p)
      && s.heap[a].sequence == s.history.batch[0] && s.heap[a].sequence !in p.history.batch
      && (forall i | 0 <= i < |p.expired| :: p.expired[i].timer != a)
      && (forall b | b in s.heap && b != a :: Owned(p, b))
  {
    var a := s.expired[0].timer;
    var p := Popped(s);
    BatchDistinct(s);
    assert forall i | 0 <= i < |p.expired| :: p.expired[i] == s.expired[i + 1] && p.history.batch[i] == s.history.batch[i + 1];
    assert forall q :: Alive(s, q) ==> Alive(p, q);
    forall b | b in s.heap && b != a
      ensures Owned(p, b)
    {
      assert Owned(s, b);
      if s.heap[b].sequence in s.history.batch {
        var i :| 0 <= i < |s.history.batch| && s.history.batch[i] == s.heap[b].sequence;
        assert i != 0;
        assert p.history.batch[i - 1] == s.heap[b].sequence;
      }
    }
  }

  lemma ReinsertCore(s: State)
    requires Core(s) && s.expired != []
    ensures var a := s.expired[0].timer; var p := Popped(s);
      && a in s.heap
      && var t := p.(heap := s.heap[a := Restart(s.heap[a], s.now)]);
      && Core(InsertTimer(t, a))
      && IndexOk(t) && EntryAt(t, a) !in t.timers
  {
    var a := s.expired[0].timer;
    var p := Popped(s);
    PopOwnership(s);
    var t := p.(heap := s.heap[a := Restart(s.heap[a], s.now)]);
    Rekeyed(p, t, a);
    InsertCore(t, a);
  }

  /** Changing the expiration of a timer that is in neither set disturbs no other. */
  lemma Rekeyed(p: State, t: State, a: Addr)
    requires HeapOk(p) && IndexOk(p) && BatchOk(p) && a in p.heap && EntryAt(p, a) !in p.timers
    requires a in t.heap && t == p.(heap := p.heap[a := p.heap[a].(expiration := t.heap[a].expiration)])
    requires forall i | 0 <= i < |p.expired| :: p.expired[i].timer != a
    ensures HeapOk(t) && IndexOk(t) && BatchOk(t) && EntryAt(t, a) !in t.timers
    ensures forall b | b in p.heap && b != a :: Owned(p, b) ==> Owned(t, b)
  {
    assert forall e | e in t.timers :: e.timer != a;
    assert HeapOk(t) by {
      assert forall q :: Alive(p, q) ==> Alive(t, q);
    }
  }

  lemma DiscardCore(s: State)
    requires Core(s) && s.expired != []
    ensures Core(Delete(Popped(s), s.expired[0].timer))
  {
    PopOwnership(s);
    Discarded(Popped(s), Delete(Popped(s), s.expired[0].timer), s.expired[0].timer);
  }

  /** A timer that nothing refers to any more is freed. */
  lemma Discarded(p: State, r: State, a: Addr)
    requires !p.fault && HeapOk(p) && IndexOk(p) && BatchOk(p)
    requires p.queued <= p.heap.Keys && (forall b | b in p.queued :: EntryAt(p, b) !in p.timers)
    requires a in p.heap && a !in p.queued && EntryAt(p, a) !in p.timers
    requires forall i | 0 <= i < |p.expired| :: p.expired[i].timer != a
    requires forall b | b in p.heap && b != a :: Owned(p, b)
    requires r == Delete(p, a)
    ensures Core(r)
  {
    assert HeapOk(r) by {
      assert forall q | q != p.heap[a].sequence :: Alive(p, q) ==> Alive(r, q);
    }
    assert forall e | e in r.timers :: e.timer != a;
    assert IndexOk(r);
    assert BatchOk(r);
    assert forall b | b in r.heap :: Owned(p, b) ==> Owned(r, b);
  }

  /** Whether reset keeps the first expired timer. */
  predicate Kept(s: State)
    requires s.expired != [] && s.expired[0].timer in s.heap
  {
    s.heap[s.expired[0].timer].repeat && IdAt(s, s.expired[0].timer) !in s.canceling
  }

  /** What one turn of reset leaves. */
  ghost predicate Turned(s: State, r: State)
    requires s.expired != []
  {
    var a := s.expired[0].timer;
    && |s.history.batch| > 0 && a in s.heap && s.heap[a].sequence == s.history.batch[0]
    && r.expired == s.expired[1..]
    && r.history == s.history.(batch := s.history.batch[1..], deleted := r.history.deleted)
    && r.history.deleted == (if Kept(s) then s.history.deleted else s.history.deleted + {s.history.batch[0]})
    && r == s.(heap := r.heap, timers := r.timers, active := r.active, expired := r.expired, history := r.history)
    && (if Kept(s)
        then r.timers != [] && r.timers[0] ==
               (var e := Entry(s.now + s.heap[a].interval, a);
                if s.timers == [] || Less(e, s.timers[0]) then e else s.timers[0])
        else r.timers == s.timers)
  }

  lemma KeepTurn(s: State)
    requires Core(s) && s.expired != [] && s.expired[0].timer in s.heap && Kept(s)
    ensures Core(Reset1(s)) && Turned(s, Reset1(s))
  {
    var a := s.expired[0].timer;
    PopOwnership(s);
    ReinsertCore(s);
    InsertTimerWorks(Popped(s).(heap := s.heap[a := Restart(s.heap[a], s.now)]), a);
  }

  lemma DropTurn(s: State)
    requires Core(s) && s.expired != [] && s.expired[0].timer in s.heap && !Kept(s)
    ensures Core(Reset1(s)) && Turned(s, Reset1(s))
  {
    PopOwnership(s);
    DiscardCore(s);
  }

  lemma Reset1Core(s: State)
    requires Core(s) && s.expired != []
    ensures Core(Reset1(s)) && Turned(s, Reset1(s))
  {
    PopOwnership(s);
    if Kept(s) {
      KeepTurn(s);
    } else {
      DropTurn(s);
    }
  }

  lemma Reset1Inv(s: State)
    requires Resetting(s) && s.expired != []
    ensures Resetting(Reset1(s))
    ensures |Reset1(s).expired| < |s.expired|
  {
    Reset1Core(s);
    Reset1History(s, Reset1(s));
  }

  lemma Reset1History(s: State, r: State)
    requires CancelOk(s) && LogOk(s) && HeapOk(s) && BatchOk(s) && !s.calling
    requires s.expired != [] && !r.calling && r.canceling == s.canceling
    requires r.history == s.history.(batch := s.history.batch[1..], deleted := r.history.deleted)
    requires r.history.deleted == if Kept(s) then s.history.deleted else s.history.deleted + {s.history.batch[0]}
    ensures CancelOk(r) && LogOk(r)
  {
    assert s.history.batch == [s.history.batch[0]] + s.history.batch[1..];
  }

  lemma {:induction false} ResetLoopInv(s: State)
    requires Resetting(s)
    ensures var r := ResetLoop(s); Resetting(r) && r.expired == []
    decreases |s.expired|
  {
    if s.expired != [] {
      Reset1Inv(s);
      ResetLoopInv(Reset1(s));
    }
  }

  lemma StopCalling(s: State)
    requires Inv(s) && s.calling
    ensures Resetting(s.(calling := false, ran := 0))
  {
    BeginFrame(s, s.(calling := false, ran := 0));
  }

  lemma RearmInv(r: State)
    requires Resetting(r) && r.expired == []
    ensures Inv(Rearm(r))
    ensures Rearm(r) == r.(fd := Rearm(r).fd)
  {
    assert r.timers != [] ==> r.timers[0] in r.timers;
    FdChangeCore(r, Rearm(r).fd);
    LogFrame(r, Rearm(r));
  }

  lemma EndInv(s: State)
    requires Inv(s)
    ensures Inv(End(s))
  {
    if s.calling && s.ran == |s.expired| {
      var s1 := s.(calling := false, ran := 0);
      StopCalling(s);
      ResetLoopInv(s1);
      RearmInv(ResetLoop(s1));
    }
  }

  // ---- every run ------------------------------------------------------------------------

  lemma StepInv(s: State, e: Event)
    requires Inv(s)
    ensures Inv(Step(s, e))
  {
    match e
    case User(c) =>
      match c {
        case New(a, when, interval, repeat) => NewInv(s, a, when, interval, repeat);
        case Add(a) => AddInv(s, a);
        case ReadId(q) => FinishAddInv(s, q);
        case Cancel(id) => CancelInv(s, id);
        case Tick(d) => PassInv(s, d);
      }
    case BeginRead => BeginInv(s);
    case RunNext => Run1Inv(s);
    case EndRead => EndInv(s);
  }

  /** Every reachable state satisfies the invariant, whatever callbacks and other threads do. */
  lemma {:induction false} RunInv(s: State, es: seq<Event>)
    requires Inv(s)
    ensures Inv(Run(s, es))
    decreases |es|
  {
    if es != [] {
      RunInv(s, es[..|es| - 1]);
      StepInv(Run(s, es[..|es| - 1]), es[|es| - 1]);
    }
  }

  ghost predicate Reachable(s: State) {
    exists clock, es :: 0 < clock && s == Run(Init(clock), es)
  }

  lemma ReachableInv(s: State)
    requires Reachable(s)
    ensures Inv(s)
  {
    var clock, es :| 0 < clock && s == Run(Init(clock), es);
    InitInv(clock);
    RunInv(Init(clock), es);
  }
}
