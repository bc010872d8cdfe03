/** The class TimerQueue with its loops and its assertions; every method is proved against the
    transition of `TimerModel` that it carries out. */
module TimerQueues {
  import opened TimerEntries
  import opened TimerModel
  import opened TimerInvariant
  import opened TimerTheorems
  import opened Numbers

  /** The callbacks of a batch from the `ran`-th on: each is started and then makes the calls
      `script` prescribes for it. */
  ghost function Callbacks(s: State, script: seq<seq<Call>>): State
    decreases |s.expired| - s.ran
  {
    if !s.calling || |s.expired| <= s.ran then s
    else
      var r := PerformAll(Run1(s), if s.ran < |script| then script[s.ran] else []);
      if r.calling && |r.expired| - r.ran < |s.expired| - s.ran then Callbacks(r, script) else r
  }

  ghost function PerformAll(s: State, calls: seq<Call>): State
    decreases |calls|
  {
    if calls == [] then s else PerformAll(Step(s, User(calls[0])), calls[1..])
  }

  lemma AddFrame(s: State, a: Addr)
    ensures var r := TimerModel.AddTimerInLoop(s, a); r.calling == s.calling && r.expired == s.expired && r.ran == s.ran
  {}

  lemma CancelFrame(s: State, id: ActiveTimer)
    ensures var r := TimerModel.CancelInLoop(s, id); r.calling == s.calling && r.expired == s.expired && r.ran == s.ran
  {
    var m := Mark(s, id);
    assert m == s.(history := m.history);
    forall ts: seq<Entry>, ids: set<ActiveTimer>
      ensures var r := Sized(Delete(m.(timers := ts, active := ids), id.timer));
        r.calling == s.calling && r.expired == s.expired && r.ran == s.ran
    {}
  }

  /** The entries name distinct live timers that are all in `activeTimers_`. */
  ghost predicate AllActive(s: State, es: seq<Entry>) {
    && (forall i | 0 <= i < |es| :: es[i].timer in s.heap && IdAt(s, es[i].timer) in s.active)
    && (forall i, j | 0 <= i < j < |es| :: es[i].timer != es[j].timer)
  }

  lemma DueAreActive(s: State, k: nat)
    requires IndexOk(s) && k <= |s.timers|
    ensures AllActive(s, s.timers[..k])
  {
    TimersByIndex(s);
  }

  /** User calls leave handleRead's own variables alone. */
  lemma CallFrame(s: State, c: Call)
    ensures var r := Perform(s, c); r.calling == s.calling && r.expired == s.expired && r.ran == s.ran
  {
    match c
    case New(_, _, _, _) =>
    case Add(a) => AddFrame(s, a);
    case ReadId(_) =>
    case Cancel(id) => CancelFrame(s, id);
    case Tick(_) =>
  }

  lemma {:induction false} PerformAllFrame(s: State, calls: seq<Call>)
    requires Inv(s)
    ensures var r := PerformAll(s, calls);
      Inv(r) && r.calling == s.calling && r.expired == s.expired && r.ran == s.ran
    decreases |calls|
  {
    if calls != [] {
      CallFrame(s, calls[0]);
      StepInv(s, User(calls[0]));
      PerformAllFrame(Step(s, User(calls[0])), calls[1..]);
    }
  }

  /** The first expired timer out of the batch and given its next expiration. */
  ghost function Restarted(s: State): (t: State)
    requires s.expired != [] && |s.history.batch| == |s.expired| && s.expired[0].timer in s.heap
    ensures s.expired[0].timer in t.heap
  {
    var a := s.expired[0].timer;
    Popped(s).(heap := s.heap[a := Restart(s.heap[a], s.now)])
  }

  class TimerQueue {
    var timers: seq<Entry>
    var activeTimers: set<ActiveTimer>
    var cancelingTimers: set<ActiveTimer>
    var callingExpiredTimers: bool
    // Environment: allocator, the shared creation counter, clock, timerfd, functor queue.
    var heap: map<Addr, Timer>
    var numCreated: nat
    var clock: int
    var timerfd: TimerFd
    var queued: set<Addr>
    var reading: map<nat, Addr>
    // Locals of handleRead that outlive a callback.
    var now: int
    var expired: seq<Entry>
    var ran: nat
    ghost var history: History

    ghost function Abs(): State
      reads this
    {
      State(heap, numCreated, clock, timerfd, queued, reading, timers, activeTimers, cancelingTimers,
            callingExpiredTimers, now, expired, ran, false, history)
    }

    ghost predicate Valid()
      reads this
    {
      Inv(Abs())
    }

    constructor (clock: int)
      requires 0 < clock
      ensures Abs() == Init(clock) && Valid()
    {
      timers, activeTimers, cancelingTimers, callingExpiredTimers := [], {}, {}, false;
      heap, numCreated, timerfd, queued, reading := map[], 0, Disarmed, {}, map[];
      this.clock := clock;
      now, expired, ran := 0, [], 0;
      history := History(map[], {}, {}, [], 0, [], map[]);
      new;
      InitInv(clock);
    }

    method ResetTimerfd(when: int)
      modifies this`timerfd
      ensures Abs() == TimerModel.ResetTimerfd(old(Abs()), when)
    {
      var ts := HowMuchTimeFromNow(when, clock);
      timerfd := Armed(clock, clock + ts.sec * MICROS_PER_SECOND + ts.nsec / 1000);
    }

    method Insert(a: Addr) returns (earliestChanged: bool)
      requires IndexOk(Abs()) && a in heap && EntryAt(Abs(), a) !in timers
      modifies this`timers, this`activeTimers
      ensures Abs() == InsertTimer(old(Abs()), a)
      ensures earliestChanged == EarliestChanged(old(Abs()), heap[a].expiration)
    {
      InsertTimerWorks(Abs(), a);
      assert |timers| == |activeTimers|;
      var when := heap[a].expiration;
      earliestChanged := timers == [] || when < timers[0].when;
      assert Entry(when, a) !in timers;
      timers := TimerEntries.Insert(timers, Entry(when, a));
      var id := ActiveTimer(a, heap[a].sequence);
      assert id !in activeTimers;
      activeTimers := activeTimers + {id};
      assert |timers| == |activeTimers|;
    }

    /** addTimer up to the posting of the timer. */
    method NewTimer(a: Addr, when: int, interval: nat, repeat: bool)
      requires Valid() && a !in heap && 0 < a < UINTPTR_MAX
      modifies this`heap, this`numCreated, this`queued, this`reading, this`history
      ensures Abs() == TimerModel.NewTimer(old(Abs()), a, when, interval, repeat) && Valid()
    {
      NewInv(Abs(), a, when, interval, repeat);
      Allocate(a, when, interval, repeat);
    }

    method Allocate(a: Addr, when: int, interval: nat, repeat: bool)
      requires a !in heap && 0 < a < UINTPTR_MAX
      modifies this`heap, this`numCreated, this`queued, this`reading, this`history
      ensures Abs() == TimerModel.NewTimer(old(Abs()), a, when, interval, repeat)
    {
      numCreated := numCreated + 1;
      heap := heap[a := Timer(when, interval, repeat, numCreated)];
      queued := queued + {a};
      reading := reading[numCreated := a];
      history := history.(born := history.born[numCreated := Birth(a, repeat)]);
    }

    /** The end of addTimer for the timer it created as number `q`; `live` is false when the
        address has been freed by then. */
    method FinishAdd(q: nat) returns (id: ActiveTimer, live: bool)
      requires Valid() && q in reading
      modifies this`reading, this`history
      ensures Abs() == TimerModel.FinishAdd(old(Abs()), q) && Valid()
      ensures id.timer == old(reading)[q] && live == (id.timer in heap)
      ensures live ==> id == IdAt(Abs(), id.timer)
    {
      FinishAddInv(Abs(), q);
      var a := reading[q];
      live := a in heap;
      id := ActiveTimer(a, if live then heap[a].sequence else 0);
      reading := reading - {q};
      history := history.(found := history.found[q := if live then Got(id.sequence) else Stray]);
    }

    /** A whole call of addTimer on the loop thread, where the timer is added in between. */
    method AddTimer(a: Addr, when: int, interval: nat, repeat: bool) returns (id: ActiveTimer)
      requires Valid() && a !in heap && 0 < a < UINTPTR_MAX
      modifies this
      ensures Valid() && id == ActiveTimer(a, old(numCreated) + 1)
      ensures IsIndexed(Abs(), id.sequence) && a in heap && heap[a] == Timer(when, interval, repeat, id.sequence)
      ensures forall e :: e in timers <==> e in old(timers) || e == Entry(when, a)
    {
      OwnAdd(Abs(), a, when, interval, repeat);
      NewTimer(a, when, interval, repeat);
      AddTimerInLoop(a);
      var live;
      id, live := FinishAdd(numCreated);
    }

    method AddTimerInLoop(a: Addr)
      requires Valid() && a in queued
      modifies this`queued, this`timers, this`activeTimers, this`timerfd
      ensures Abs() == TimerModel.AddTimerInLoop(old(Abs()), a) && Valid()
    {
      AddInv(Abs(), a);
      AddNow(a);
    }

    method AddNow(a: Addr)
      requires IndexOk(Abs()) && a in queued && a in heap && EntryAt(Abs(), a) !in timers
      modifies this`queued, this`timers, this`activeTimers, this`timerfd
      ensures Abs() == TimerModel.AddTimerInLoop(old(Abs()), a)
    {
      InsertTimerWorks(Abs().(queued := queued - {a}), a);
      queued := queued - {a};
      var earliestChanged := Insert(a);
      if earliestChanged {
        ResetTimerfd(heap[a].expiration);
      }
    }

    /** The branch of cancelInLoop that finds the timer. */
    method Remove(id: ActiveTimer)
      requires IndexOk(Abs()) && id in activeTimers
      modifies this`timers, this`activeTimers, this`heap, this`history
      ensures var s := old(Abs());
        Abs() == Delete(s.(timers := Erase(s.timers, EntryAt(s, id.timer)), active := s.active - {id}), id.timer)
      ensures |timers| == |activeTimers|
    {
      var e := Entry(heap[id.timer].expiration, id.timer);
      assert e in timers;
      EraseKeepsSet(timers, e);
      timers := Erase(timers, e);
      history := history.(deleted := history.deleted + {heap[id.timer].sequence});
      heap := heap - {id.timer};
      activeTimers := activeTimers - {id};
    }

    method CancelInLoop(id: ActiveTimer)
      requires Valid()
      modifies this`timers, this`activeTimers, this`cancelingTimers, this`heap, this`history
      ensures Abs() == TimerModel.CancelInLoop(old(Abs()), id) && Valid()
    {
      CancelInv(Abs(), id);
      assert |timers| == |activeTimers|;
      if Added(Abs(), id) {
        history := history.(cancelled := history.cancelled + {id.sequence});
      }
      if id in activeTimers {
        Remove(id);
      } else if callingExpiredTimers {
        cancelingTimers := cancelingTimers + {id};
      }
      assert |timers| == |activeTimers|;
    }

    method Pass(elapsed: nat)
      requires Valid()
      modifies this`clock, this`timerfd
      ensures Abs() == TimerModel.Pass(old(Abs()), elapsed) && Valid()
    {
      PassInv(Abs(), elapsed);
      clock := clock + elapsed;
      if timerfd.Armed? && timerfd.target <= clock {
        timerfd := Fired;
      }
    }

    /** What a callback, or another thread, may do. */
    method Perform(c: Call)
      requires Valid()
      modifies this
      ensures Abs() == Step(old(Abs()), User(c)) && Valid()
    {
      StepInv(Abs(), User(c));
      match c
      case New(a, when, interval, repeat) =>
        if a !in heap && 0 < a < UINTPTR_MAX {
          NewTimer(a, when, interval, repeat);
        }
      case Add(a) => if a in queued { AddTimerInLoop(a); }
      case ReadId(q) => if q in reading { var _, _ := FinishAdd(q); }
      case Cancel(id) => CancelInLoop(id);
      case Tick(d) => Pass(d);
    }

    /** The loop of getExpired. */
    method EraseExpired()
      requires AllActive(Abs(), expired)
      modifies this`activeTimers
      ensures Abs() == EraseActive(old(Abs()), expired)
      ensures activeTimers == old(activeTimers) - Ids(old(Abs()), expired)
    {
      ghost var s := Abs();
      EraseActiveWorks(s, expired);
      var i := 0;
      while i < |expired|
        invariant 0 <= i <= |expired|
        invariant EraseActive(Abs(), expired[i..]) == EraseActive(s, expired)
      {
        assert expired[i..][0] == expired[i] && expired[i..][1..] == expired[i + 1..];
        EraseActiveSafe(Abs(), expired[i..]);
        var a := expired[i].timer;
        var id := ActiveTimer(a, heap[a].sequence);
        assert id in activeTimers;
        activeTimers := activeTimers - {id};
        i := i + 1;
      }
    }

    /** The first `k` entries leave `timers_`. */
    method MoveDue(k: nat, t: int)
      requires IndexOk(Abs()) && k <= |timers|
      modifies this`timers, this`now, this`expired, this`history
      ensures var s := old(Abs());
        Abs() == s.(timers := s.timers[k..], now := t, expired := s.timers[..k],
                    history := s.history.(batch := Sequences(s, s.timers[..k])))
      ensures AllActive(Abs(), expired)
    {
      DueAreActive(Abs(), k);
      history := history.(batch := Sequences(Abs(), timers[..k]));
      now, expired, timers := t, timers[..k], timers[k..];
    }

    method GetExpired(t: int)
      requires Core(Abs()) && expired == []
      modifies this`timers, this`activeTimers, this`now, this`expired, this`history
      ensures Abs() == TimerModel.GetExpired(old(Abs()), t)
    {
      GetExpiredSplits(Abs(), t);
      assert |timers| == |activeTimers|;
      var k := LowerBound(timers, Entry(t, UINTPTR_MAX));
      assert k == |timers| || t < timers[k].when;
      MoveDue(k, t);
      EraseExpired();
      assert |timers| == |activeTimers|;
    }

    /** One turn of the loop of reset. */
    method ResetOne()
      requires expired != [] && |history.batch| == |expired| && expired[0].timer in heap
      requires var t := Restarted(Abs()); IndexOk(t) && EntryAt(t, expired[0].timer) !in t.timers
      modifies this`timers, this`activeTimers, this`expired, this`heap, this`history
      ensures Abs() == Reset1(old(Abs()))
    {
      var a := expired[0].timer;
      var id := ActiveTimer(a, heap[a].sequence);
      expired := expired[1..];
      history := history.(batch := history.batch[1..]);
      if heap[a].repeat && id !in cancelingTimers {
        heap := heap[a := Restart(heap[a], now)];
        var _ := Insert(a);
      } else {
        history := history.(deleted := history.deleted + {heap[a].sequence});
        heap := heap - {a};
      }
    }

    method Reset()
      requires Resetting(Abs())
      modifies this`timers, this`activeTimers, this`expired, this`heap, this`history, this`timerfd
      ensures Abs() == Rearm(ResetLoop(old(Abs()))) && Valid()
      ensures timerfd ==
        if timers != [] && 0 < timers[0].when then Armed(clock, Max(timers[0].when, clock + 100)) else old(timerfd)
    {
      ResetAll();
      ArmNext();
    }

    /** The loop of reset. */
    method ResetAll()
      requires Resetting(Abs())
      modifies this`timers, this`activeTimers, this`expired, this`heap, this`history
      ensures Abs() == ResetLoop(old(Abs())) && Resetting(Abs()) && expired == []
    {
      ghost var s0 := Abs();
      while expired != []
        invariant Resetting(Abs())
        invariant ResetLoop(Abs()) == ResetLoop(s0)
        decreases |expired|
      {
        Reset1Inv(Abs());
        Reset1Core(Abs());
        ReinsertCore(Abs());
        ResetOne();
      }
    }

    /** The end of reset. */
    method ArmNext()
      requires Resetting(Abs()) && expired == []
      modifies this`timerfd
      ensures Abs() == Rearm(old(Abs())) && Valid()
      ensures timerfd ==
        if timers != [] && 0 < timers[0].when then Armed(clock, Max(timers[0].when, clock + 100)) else old(timerfd)
    {
      RearmInv(Abs());
      RearmExact(Abs());
      if timers != [] {
        assert timers[0] in timers;
        var nextExpire := heap[timers[0].timer].expiration;
        if 0 < nextExpire {
          ResetTimerfd(nextExpire);
        }
      }
    }

    method ReadTimerfd()
      requires Core(Abs())
      modifies this`timerfd
      ensures Abs() == old(Abs()).(fd := TimerModel.ReadTimerfd(old(timerfd))) && Core(Abs())
    {
      FdChangeCore(Abs(), TimerModel.ReadTimerfd(timerfd));
      if timerfd.Fired? {
        timerfd := Disarmed;
      }
    }

    /** handleRead up to its first callback. */
    method BeginRead()
      requires Valid() && !callingExpiredTimers
      modifies this
      ensures Abs() == Begin(old(Abs())) && Valid() && callingExpiredTimers && ran == 0
    {
      BeginInv(Abs());
      ReadTimerfd();
      GetExpired(clock);
      callingExpiredTimers := true;
      cancelingTimers := {};
      ran := 0;
      history := history.(round := history.round + 1);
    }

    /** handleRead after its last callback. */
    method EndRead()
      requires Valid() && callingExpiredTimers && ran == |expired|
      modifies this
      ensures Abs() == End(old(Abs())) && Valid() && !callingExpiredTimers
    {
      EndInv(Abs());
      StopCalling(Abs());
      callingExpiredTimers := false;
      ran := 0;
      ResetLoopInv(Abs());
      RearmInv(ResetLoop(Abs()));
      Reset();
    }

    /** The whole handler, with callbacks that re-enter the queue. */
    method HandleRead(script: seq<seq<Call>>)
      requires Valid() && !callingExpiredTimers
      modifies this
      ensures Abs() == End(Callbacks(Begin(old(Abs())), script)) && Valid()
      ensures !callingExpiredTimers
    {
      BeginRead();
      ghost var s1 := Abs();
      while ran < |expired|
        invariant Valid() && callingExpiredTimers && ran <= |expired|
        invariant Callbacks(Abs(), script) == Callbacks(s1, script)
        decreases |expired| - ran
      {
        RunCallback(if ran < |script| then script[ran] else []);
      }
      EndRead();
    }

    method RunCallback(calls: seq<Call>)
      requires Valid() && callingExpiredTimers && ran < |expired|
      modifies this
      ensures Abs() == PerformAll(Run1(old(Abs())), calls) && Valid()
      ensures callingExpiredTimers && expired == old(expired) && ran == old(ran) + 1
    {
      StartCallback();
      MakeCalls(calls);
    }

    method StartCallback()
      requires Valid() && callingExpiredTimers && ran < |expired|
      modifies this`ran, this`history
      ensures Abs() == Run1(old(Abs())) && Valid() && ran == old(ran) + 1
    {
      Run1Inv(Abs());
      NextToRun(Abs());
      var a := expired[ran].timer;
      history := history.(log := history.log + [Firing(history.round, heap[a].sequence)]);
      ran := ran + 1;
    }

    /** The calls that a callback makes, or other threads make meanwhile. */
    method MakeCalls(calls: seq<Call>)
      requires Valid()
      modifies this
      ensures Abs() == PerformAll(old(Abs()), calls) && Valid()
      ensures callingExpiredTimers == old(callingExpiredTimers) && expired == old(expired) && ran == old(ran)
    {
      ghost var s := Abs();
      PerformAllFrame(s, calls);
      var i := 0;
      while i < |calls|
        invariant 0 <= i <= |calls|
        invariant Valid()
        invariant PerformAll(Abs(), calls[i..]) == PerformAll(s, calls)
      {
        assert calls[i..][0] == calls[i] && calls[i..][1..] == calls[i + 1..];
        Perform(calls[i]);
        i := i + 1;
      }
    }
  }

  // ---- the handler is a run of the transition system ------------------------------------

  lemma StepReachable(s: State, e: Event)
    requires Reachable(s)
    ensures Reachable(Step(s, e))
  {
    var clock, es :| 0 < clock && s == Run(Init(clock), es);
    assert (es + [e])[..|es|] == es;
    assert Step(s, e) == Run(Init(clock), es + [e]);
  }

  lemma {:induction false} PerformAllReachable(s: State, calls: seq<Call>)
    requires Reachable(s)
    ensures Reachable(PerformAll(s, calls))
    decreases |calls|
  {
    if calls != [] {
      StepReachable(s, User(calls[0]));
      PerformAllReachable(Step(s, User(calls[0])), calls[1..]);
    }
  }

  /** One turn of the loop over the batch. */
  lemma CallbacksTurn(s: State, script: seq<seq<Call>>)
    requires Inv(s) && s.calling && s.ran < |s.expired|
    ensures var calls := if s.ran < |script| then script[s.ran] else [];
      var r := PerformAll(Run1(s), calls);
      && Callbacks(s, script) == Callbacks(r, script)
      && r.calling && r.expired == s.expired && r.ran == s.ran + 1
  {
    Run1Inv(s);
    PerformAllFrame(Run1(s), if s.ran < |script| then script[s.ran] else []);
  }

  lemma {:induction false} CallbacksReachable(s: State, script: seq<seq<Call>>)
    requires Reachable(s) && s.calling
    ensures var r := Callbacks(s, script); Reachable(r) && r.calling && r.ran == |r.expired|
    decreases |s.expired| - s.ran
  {
    ReachableInv(s);
    if s.ran < |s.expired| {
      var calls := if s.ran < |script| then script[s.ran] else [];
      StepReachable(s, RunNext);
      PerformAllReachable(Run1(s), calls);
      CallbacksTurn(s, script);
      CallbacksReachable(PerformAll(Run1(s), calls), script);
    }
  }

  /** What HandleRead does, callbacks included, is a sequence of steps: whatever holds of every
      reachable state holds before and after every handler run. */
  lemma HandlerReachable(s: State, script: seq<seq<Call>>)
    requires Reachable(s) && !s.calling
    ensures var r := End(Callbacks(Begin(s), script)); Reachable(r) && !r.calling
  {
    ReachableInv(s);
    StepReachable(s, BeginRead);
    BeginInv(s);
    CallbacksReachable(Begin(s), script);
    var c := Callbacks(Begin(s), script);
    ReachableInv(c);
    StepReachable(c, EndRead);
    EndCalls(c);
  }

  lemma EndCalls(c: State)
    requires Inv(c) && c.calling && c.ran == |c.expired|
    ensures !End(c).calling
  {
    StopCalling(c);
    ResetLoopInv(c.(calling := false, ran := 0));
    RearmInv(ResetLoop(c.(calling := false, ran := 0)));
  }

  /** If the loop that drops expired timers ends without a failed assertion, so does each turn. */
  lemma EraseActiveSafe(s: State, es: seq<Entry>)
    requires !EraseActive(s, es).fault && es != []
    ensures es[0].timer in s.heap && IdAt(s, es[0].timer) in s.active
  {}
}
