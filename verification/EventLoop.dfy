/** The class EventLoop: the functor queue, the wakeup eventfd and the loop itself. */
module EventLoops {
  import opened LoopModel
  import LoopTheorems

  /** What functors `0..n` queue while they run, in order. */
  function Queued(script: seq<seq<Job>>, n: nat): seq<Job> {
    if n == 0 then []
    else Queued(script, n - 1) + if n - 1 < |script| then script[n - 1] else []
  }

  /** The sequences of one turn of doPendingFunctors' loop. */
  lemma Turn(fs: seq<Job>, i: nat, e0: seq<Job>, h0: seq<Job>, pending: seq<Job>, jobs: seq<Job>)
    requires i < |fs|
    ensures fs[i..] != [] && fs[i..][0] == fs[i] && fs[i..][1..] == fs[i + 1..]
    ensures e0 + fs[..i] + [fs[i]] == e0 + fs[..i + 1]
    ensures h0 + pending + jobs == h0 + (pending + jobs)
  {
    assert fs[..i + 1] == fs[..i] + [fs[i]];
  }

  /** What comes from outside in one pass of loop(): what is queued until poll returns, whether it
      reports the wakeup channel, what is queued by channel callbacks or meanwhile by other threads
      before the swap, what is queued while each functor runs, and who calls quit. */
  datatype Pass = Pass(
    polling: seq<Job>,
    quitsPolling: Quitter,
    wake: bool,
    handling: seq<Job>,
    quitsHandling: Quitter,
    running: seq<seq<Job>>,
    quitsRunning: Quitter)

  datatype Quitter = Nobody | LoopItself | OtherThread

  predicate Quits(p: Pass) {
    !p.quitsPolling.Nobody? || !p.quitsHandling.Nobody? || !p.quitsRunning.Nobody?
  }

  /** What pass `p` runs when it begins with `first` pending: that, and whatever is queued before
      the swap. */
  function Batch(first: seq<Job>, p: Pass): seq<Job> { first + p.polling + p.handling }

  /** What is pending after `n` passes that began with `first` pending. */
  function PendingAfter(first: seq<Job>, passes: seq<Pass>, n: nat): seq<Job>
    requires n <= |passes|
  {
    if n == 0 then first
    else Queued(passes[n - 1].running, |Batch(PendingAfter(first, passes, n - 1), passes[n - 1])|)
  }

  /** What runs in them. */
  function RunBy(first: seq<Job>, passes: seq<Pass>, n: nat): seq<Job>
    requires n <= |passes|
  {
    if n == 0 then [] else RunBy(first, passes, n - 1) + Batch(PendingAfter(first, passes, n - 1), passes[n - 1])
  }

  class EventLoop {
    var pendingFunctors: seq<Job>
    var callingPendingFunctors: bool
    var quit_: bool
    var wakeupCounter: nat
    ghost var executed: seq<Job>
    ghost var remaining: seq<Job>  // the part of the current batch that has not run
    ghost var history: seq<Job>

    /** Nothing is lost. */
    ghost predicate Conserved()
      reads this
    {
      executed + remaining + pendingFunctors == history
    }

    /** Moreover, once functors have been run every queued one is announced. */
    ghost predicate Valid()
      reads this
    {
      && Conserved()
      && (callingPendingFunctors && pendingFunctors != [] ==> 0 < wakeupCounter)
    }

    constructor ()
      ensures Valid() && pendingFunctors == [] && !callingPendingFunctors && wakeupCounter == 0
      ensures executed == [] && remaining == [] && history == []
    {
      pendingFunctors, callingPendingFunctors, quit_, wakeupCounter := [], false, false, 0;
      executed, remaining, history := [], [], [];
    }

    method Wakeup()
      modifies this`wakeupCounter
      ensures wakeupCounter == Write(old(wakeupCounter)) && 0 < wakeupCounter
    {
      wakeupCounter := if EVENTFD_MAX <= wakeupCounter then wakeupCounter else wakeupCounter + 1;
    }

    method HandleRead()
      modifies this`wakeupCounter
      ensures wakeupCounter == 0
    {
      wakeupCounter := 0;
    }

    method Quit(inLoopThread: bool)
      modifies this`quit_, this`wakeupCounter
      ensures quit_
      ensures wakeupCounter == if inLoopThread then old(wakeupCounter) else Write(old(wakeupCounter))
    {
      quit_ := true;
      if !inLoopThread {
        Wakeup();
      }
    }

    /** queueInLoop, called on the thread that owns `job`. */
    method QueueInLoop(job: Job)
      requires Conserved()
      modifies this`pendingFunctors, this`wakeupCounter, this`history
      ensures Conserved() && (old(Valid()) ==> Valid())
      ensures pendingFunctors == old(pendingFunctors) + [job] && history == old(history) + [job]
      ensures job.owner.Producer? || callingPendingFunctors ==> 0 < wakeupCounter
      ensures job.owner.LoopThread? && !callingPendingFunctors ==> wakeupCounter == old(wakeupCounter)
      ensures old(wakeupCounter) <= wakeupCounter
    {
      assert executed + remaining + (pendingFunctors + [job]) == executed + remaining + pendingFunctors + [job];
      pendingFunctors := pendingFunctors + [job];
      history := history + [job];
      if !job.owner.LoopThread? || callingPendingFunctors {
        Wakeup();
      }
    }

    /** runInLoop: on the loop thread the functor runs at once and is never queued. */
    method RunInLoop(job: Job) returns (ran: bool)
      requires Valid()
      modifies this`pendingFunctors, this`wakeupCounter, this`history
      ensures Valid()
      ensures ran == job.owner.LoopThread?
      ensures ran ==> pendingFunctors == old(pendingFunctors) && wakeupCounter == old(wakeupCounter)
      ensures !ran ==> pendingFunctors == old(pendingFunctors) + [job] && 0 < wakeupCounter
    {
      ran := job.owner.LoopThread?;
      if !ran {
        QueueInLoop(job);
      }
    }

    /** doPendingFunctors; while functor i runs, it or another thread queues `script[i]`. */
    method DoPendingFunctors(script: seq<seq<Job>>)
      requires Conserved() && remaining == []
      modifies this
      ensures Valid() && remaining == []
      ensures executed == old(executed) + old(pendingFunctors)
      ensures pendingFunctors == Queued(script, |old(pendingFunctors)|)
      ensures history == old(history) + pendingFunctors
      ensures callingPendingFunctors
      ensures quit_ == old(quit_)
      ensures pendingFunctors == [] ==> wakeupCounter == old(wakeupCounter)
    {
      var functors := SwapFunctors();
      ghost var e0, h0 := executed, history;
      var i := 0;
      while i < |functors|
        invariant 0 <= i <= |functors|
        invariant executed == e0 + functors[..i] && remaining == functors[i..]
        invariant pendingFunctors == Queued(script, i) && history == h0 + pendingFunctors
        invariant Valid() && callingPendingFunctors && quit_ == old(quit_)
        invariant pendingFunctors == [] ==> wakeupCounter == old(wakeupCounter)
      {
        var jobs := if i < |script| then script[i] else [];
        Turn(functors, i, e0, h0, pendingFunctors, jobs);
        RunFunctor(functors[i], jobs);
        i := i + 1;
      }
      assert functors[..i] == functors;
      callingPendingFunctors := true;
    }

    /** loop(), until quit is called in a pass or `passes` is used up. Every pass runs what was
        pending when it began and what was queued before its swap, and leaves what was queued while
        its functors ran. A quit from before the call is forgotten; one during a pass lets that
        pass finish. */
    method Loop(passes: seq<Pass>) returns (n: nat)
      requires Valid() && remaining == []
      modifies this
      ensures Valid() && remaining == []
      ensures n <= |passes| && (forall i | 0 <= i < n - 1 :: !Quits(passes[i]))
      ensures n < |passes| ==> 0 < n && Quits(passes[n - 1])
      ensures executed == old(executed) + RunBy(old(pendingFunctors), passes, n)
      ensures pendingFunctors == PendingAfter(old(pendingFunctors), passes, n)
    {
      ghost var e0, p0 := executed, pendingFunctors;
      quit_ := false;
      n := 0;
      while n < |passes| && !quit_
        invariant 0 <= n <= |passes| && Valid() && remaining == []
        invariant forall i | 0 <= i < n - 1 :: !Quits(passes[i])
        invariant quit_ <==> 0 < n && Quits(passes[n - 1])
        invariant executed == e0 + RunBy(p0, passes, n)
        invariant pendingFunctors == PendingAfter(p0, passes, n)
      {
        LoopTheorems.JobAssoc(e0, RunBy(p0, passes, n), Batch(pendingFunctors, passes[n]));
        OnePass(passes[n]);
        n := n + 1;
      }
    }

    /** The body of loop(). */
    method OnePass(pass: Pass)
      requires Valid() && remaining == [] && !quit_
      modifies this
      ensures Valid() && remaining == [] && quit_ == Quits(pass)
      ensures pass.quitsRunning.OtherThread? ==> 0 < wakeupCounter
      ensures (pass.wake && pass.handling == [] && pendingFunctors == [] &&
               !pass.quitsHandling.OtherThread? && !pass.quitsRunning.OtherThread?) ==> wakeupCounter == 0
      ensures executed == old(executed) + Batch(old(pendingFunctors), pass)
      ensures pendingFunctors == Queued(pass.running, |Batch(old(pendingFunctors), pass)|)
    {
      QueueAll(pass.polling);
      QuitBy(pass.quitsPolling);
      if pass.wake && 0 < wakeupCounter {
        HandleRead();
      }
      QueueAll(pass.handling);
      QuitBy(pass.quitsHandling);
      DoPendingFunctors(pass.running);
      QuitBy(pass.quitsRunning);
    }

    /** quit, if it is called; on another thread it also wakes the loop. */
    method QuitBy(q: Quitter)
      modifies this`quit_, this`wakeupCounter
      ensures quit_ == (old(quit_) || !q.Nobody?)
      ensures if q.OtherThread? then 0 < wakeupCounter else wakeupCounter == old(wakeupCounter)
    {
      if !q.Nobody? {
        Quit(q.LoopItself?);
      }
    }

    /** doPendingFunctors up to its loop. */
    method SwapFunctors() returns (functors: seq<Job>)
      requires Conserved() && remaining == []
      modifies this`callingPendingFunctors, this`pendingFunctors, this`remaining
      ensures Valid() && callingPendingFunctors && pendingFunctors == []
      ensures functors == old(pendingFunctors) && remaining == functors
    {
      callingPendingFunctors := true;
      assert executed + [] + pendingFunctors == executed + pendingFunctors + [];
      functors, pendingFunctors := pendingFunctors, [];
      remaining := functors;
    }

    /** functors[i](), during which `jobs` are queued. */
    method RunFunctor(f: Job, jobs: seq<Job>)
      requires Valid() && callingPendingFunctors && remaining != [] && remaining[0] == f
      modifies this`executed, this`remaining, this`pendingFunctors, this`wakeupCounter, this`history
      ensures Valid()
      ensures executed == old(executed) + [f] && remaining == old(remaining)[1..]
      ensures pendingFunctors == old(pendingFunctors) + jobs && history == old(history) + jobs
      ensures jobs == [] ==> wakeupCounter == old(wakeupCounter)
    {
      LoopTheorems.MoveHead(executed, remaining, 0, pendingFunctors);
      assert remaining[0..] == remaining;
      executed := executed + [f];
      remaining := remaining[1..];
      QueueAll(jobs);
    }

    /** Several queueInLoop calls. */
    method QueueAll(jobs: seq<Job>)
      requires Conserved()
      modifies this`pendingFunctors, this`wakeupCounter, this`history
      ensures Conserved() && (old(Valid()) ==> Valid())
      ensures pendingFunctors == old(pendingFunctors) + jobs && history == old(history) + jobs
      ensures jobs == [] ==> wakeupCounter == old(wakeupCounter)
    {
      var k := 0;
      while k < |jobs|
        invariant 0 <= k <= |jobs| && Conserved() && (old(Valid()) ==> Valid())
        invariant k == 0 ==> wakeupCounter == old(wakeupCounter)
        invariant pendingFunctors == old(pendingFunctors) + jobs[..k] && history == old(history) + jobs[..k]
      {
        assert jobs[..k + 1] == jobs[..k] + [jobs[k]];
        QueueInLoop(jobs[k]);
        k := k + 1;
      }
      assert jobs[..k] == jobs;
    }
  }
}
