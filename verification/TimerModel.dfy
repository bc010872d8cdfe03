/** TimerQueue.cc as a transition system over values.

    Timers are raw pointers that the queue deletes by hand, so the memory they live in is part
    of the state: `heap` maps the addresses of live timers to their fields and a freed address
    may be handed out again. A read or delete by the queue of an address that is not live, and an
    assertion of the source that does not hold, put the state in `fault`. The one read that other
    threads make, at the end of addTimer, is recorded with what it found. */
module TimerModel {
  import opened Numbers
  import opened TimerEntries

  // Timer.h. `repeat` is separate from `interval`: a positive interval below one
  // microsecond repeats with a zero step.
  datatype Timer = Timer(expiration: int, interval: nat, repeat: bool, sequence: nat)

  datatype ActiveTimer = ActiveTimer(timer: Addr, sequence: nat)

  // The one-shot timerfd: `Fired` is "expired and not yet read".
  datatype TimerFd = Disarmed | Armed(setAt: int, target: int) | Fired

  datatype Birth = Birth(addr: Addr, repeat: bool)

  datatype Firing = Firing(round: nat, sequence: nat)

  // What the last read of addTimer found: freed memory, or a timer with this number.
  datatype Read = Stray | Got(sequence: nat)

  // What happened so far; no step of the queue reads it.
  datatype History = History(
    born: map<nat, Birth>,     // every timer ever created, by sequence number
    deleted: set<nat>,
    cancelled: set<nat>,       // added timers for whose id cancelInLoop has run
    batch: seq<nat>,           // sequence numbers of the entries of `expired`
    round: nat,                // number of handleRead calls begun
    log: seq<Firing>,          // callbacks run, in order
    found: map<nat, Read>)     // per timer, what addTimer read of it to make the id it returns

  datatype State = State(
    heap: map<Addr, Timer>,
    created: nat,              // Timer::s_numCreated_
    clock: int,
    fd: TimerFd,
    queued: set<Addr>,         // addTimerInLoop functors that have not run
    reading: map<nat, Addr>,   // addTimer calls, by the timer created, that have yet to read its number
    timers: seq<Entry>,
    active: set<ActiveTimer>,
    canceling: set<ActiveTimer>,
    calling: bool,
    // locals of handleRead
    now: int,
    expired: seq<Entry>,
    ran: nat,                  // entries of `expired` whose callback has been started
    fault: bool,
    history: History)

  // What any thread or callback can do between two steps of handleRead.
  datatype Call =
    | New(addr: Addr, when: int, interval: nat, repeat: bool)  // `new Timer` and queue its insertion
    | Add(addr: Addr)                                         // addTimerInLoop of a queued timer
    | ReadId(timer: nat)                                      // addTimer reads `timer->sequence()` and returns
    | Cancel(id: ActiveTimer)                                 // cancelInLoop
    | Tick(elapsed: nat)                                      // time passes

  // handleRead is split at the points where user code runs.
  datatype Event = User(call: Call) | BeginRead | RunNext | EndRead

  const MICROS_PER_SECOND := 1_000_000

  datatype TimeSpec = TimeSpec(sec: int, nsec: int)

  /** detail::howMuchTimeFromNow. A zero timespec would disarm the timerfd and a tv_nsec
      outside [0, 10^9) would be refused. */
  function HowMuchTimeFromNow(when: int, now: int): (ts: TimeSpec)
    ensures 0 <= ts.sec && 0 <= ts.nsec < 1_000_000_000
    ensures ts != TimeSpec(0, 0)
    ensures ts.sec * 1_000_000_000 + ts.nsec == 1000 * Max(when - now, 100)
  {
    var micros := if when - now < 100 then 100 else when - now;
    TimeSpec(micros / MICROS_PER_SECOND, (micros % MICROS_PER_SECOND) * 1000)
  }

  /** detail::resetTimerfd: the kernel turns the relative timespec into a deadline. */
  function ResetTimerfd(s: State, when: int): (r: State)
    ensures r == s.(fd := Armed(s.clock, s.clock + Max(when - s.clock, 100)))
  {
    var ts := HowMuchTimeFromNow(when, s.clock);
    s.(fd := Armed(s.clock, s.clock + ts.sec * MICROS_PER_SECOND + ts.nsec / 1000))
  }

  function Init(clock: int): State {
    State(map[], 0, clock, Disarmed, {}, map[], [], {}, {}, false, 0, [], 0, false,
          History(map[], {}, {}, [], 0, [], map[]))
  }

  function Fail(s: State): State { s.(fault := true) }

  /** The size assertion at the ends of insert, cancelInLoop and getExpired. */
  function Sized(s: State): State {
    if |s.timers| == |s.active| then s else Fail(s)
  }

  function IdAt(s: State, a: Addr): ActiveTimer
    requires a in s.heap
  {
    ActiveTimer(a, s.heap[a].sequence)
  }

  function EntryAt(s: State, a: Addr): Entry
    requires a in s.heap
  {
    Entry(s.heap[a].expiration, a)
  }

  function Delete(s: State, a: Addr): State {
    if a !in s.heap then Fail(s)
    else s.(heap := s.heap - {a},
            history := s.history.(deleted := s.history.deleted + {s.heap[a].sequence}))
  }

  /** addTimer up to the posting of the timer; `a` is whatever free address the allocator chose. */
  function NewTimer(s: State, a: Addr, when: int, interval: nat, repeat: bool): State {
    if a in s.heap || a == 0 || UINTPTR_MAX <= a then s
    else
      var q := s.created + 1;
      s.(heap := s.heap[a := Timer(when, interval, repeat, q)],
         created := q,
         queued := s.queued + {a},
         reading := s.reading[q := a],
         history := s.history.(born := s.history.born[q := Birth(a, repeat)]))
  }

  /** The end of addTimer: it reads the number of the timer at the address it got from `new`. */
  function FinishAdd(s: State, q: nat): State {
    if q !in s.reading then s
    else
      var a := s.reading[q];
      s.(reading := s.reading - {q},
         history := s.history.(found :=
           s.history.found[q := if a in s.heap then Got(s.heap[a].sequence) else Stray]))
  }

  predicate EarliestChanged(s: State, when: int) {
    s.timers == [] || when < s.timers[0].when
  }

  /** TimerQueue::insert, without its result. */
  function InsertTimer(s: State, a: Addr): State {
    if a !in s.heap || |s.timers| != |s.active| || EntryAt(s, a) in s.timers || IdAt(s, a) in s.active
    then Fail(s)
    else Sized(s.(timers := Insert(s.timers, EntryAt(s, a)), active := s.active + {IdAt(s, a)}))
  }

  function AddTimerInLoop(s: State, a: Addr): State {
    if a !in s.queued then s
    else if a !in s.heap then Fail(s)
    else
      var when := s.heap[a].expiration;
      var r := InsertTimer(s.(queued := s.queued - {a}), a);
      if !r.fault && EarliestChanged(s, when) then ResetTimerfd(r, when) else r
  }

  /** `id` names a timer whose addTimerInLoop has run, whatever became of it since. */
  predicate Added(s: State, id: ActiveTimer) {
    && id.sequence in s.history.born
    && s.history.born[id.sequence].addr == id.timer
    && !(id.timer in s.heap && s.heap[id.timer].sequence == id.sequence && id.timer in s.queued)
  }

  function Mark(s: State, id: ActiveTimer): State {
    if Added(s, id)
    then s.(history := s.history.(cancelled := s.history.cancelled + {id.sequence}))
    else s
  }

  function CancelInLoop(s: State, id: ActiveTimer): State {
    if |s.timers| != |s.active| then Fail(s)
    else if id in s.active then
      if id.timer !in s.heap || EntryAt(s, id.timer) !in s.timers then Fail(s)
      else
        Sized(Delete(Mark(s, id).(timers := Erase(s.timers, EntryAt(s, id.timer)), active := s.active - {id}),
                     id.timer))
    else if s.calling then Mark(s, id).(canceling := s.canceling + {id})
    else Mark(s, id)
  }

  function Pass(s: State, elapsed: nat): State {
    var t := s.clock + elapsed;
    s.(clock := t, fd := if s.fd.Armed? && s.fd.target <= t then Fired else s.fd)
  }

  function ReadTimerfd(fd: TimerFd): TimerFd {
    if fd.Fired? then Disarmed else fd
  }

  /** The loop of getExpired that drops the expired entries from `activeTimers_`. */
  function EraseActive(s: State, expired: seq<Entry>): State
    decreases |expired|
  {
    if s.fault || expired == [] then s
    else
      var a := expired[0].timer;
      if a !in s.heap || IdAt(s, a) !in s.active then Fail(s)
      else EraseActive(s.(active := s.active - {IdAt(s, a)}), expired[1..])
  }

  /** The sequence numbers of the timers at the given entries. */
  function Sequences(s: State, es: seq<Entry>): seq<nat> {
    seq(|es|, i requires 0 <= i < |es| =>
      if es[i].timer in s.heap then s.heap[es[i].timer].sequence else 0)
  }

  function GetExpired(s: State, now: int): State {
    if |s.timers| != |s.active| then Fail(s)
    else
      var k := LowerBound(s.timers, Entry(now, UINTPTR_MAX));
      if k < |s.timers| && s.timers[k].when <= now then Fail(s)
      else
        var due := s.timers[..k];
        Sized(EraseActive(s.(timers := s.timers[k..], now := now, expired := due,
                             history := s.history.(batch := Sequences(s, due))), due))
  }

  /** handleRead up to its first callback. */
  function Begin(s: State): State {
    if s.calling then s
    else
      var r := GetExpired(s.(fd := ReadTimerfd(s.fd)), s.clock);
      r.(calling := true, canceling := {}, ran := 0,
         history := r.history.(round := r.history.round + 1))
  }

  /** One turn of handleRead's loop: start the next callback. */
  function Run1(s: State): State {
    if !s.calling || |s.expired| <= s.ran then s
    else if s.expired[s.ran].timer !in s.heap then Fail(s)
    else
      s.(ran := s.ran + 1,
         history := s.history.(log := s.history.log +
           [Firing(s.history.round, s.heap[s.expired[s.ran].timer].sequence)]))
  }

  /** Timer::restart. */
  function Restart(t: Timer, now: int): Timer {
    t.(expiration := if t.repeat then now + t.interval else 0)
  }

  /** One turn of reset's loop: re-insert or delete the first remaining expired timer. */
  function Reset1(s: State): State
    requires s.expired != []
  {
    var a := s.expired[0].timer;
    var s' := s.(expired := s.expired[1..],
                 history := s.history.(batch := if s.history.batch == [] then [] else s.history.batch[1..]));
    if a !in s.heap then Fail(s)
    else if s.heap[a].repeat && IdAt(s, a) !in s.canceling then
      InsertTimer(s'.(heap := s.heap[a := Restart(s.heap[a], s.now)]), a)
    else Delete(s', a)
  }

  function ResetLoop(s: State): State
    decreases |s.expired|
  {
    if s.fault || s.expired == [] then s
    else
      var r := Reset1(s);
      if r.fault then r else ResetLoop(r)
  }

  /** The end of reset: arm the timerfd for the earliest timer. */
  function Rearm(s: State): State {
    if s.timers == [] then s
    else if s.timers[0].timer !in s.heap then Fail(s)
    else
      var next := s.heap[s.timers[0].timer].expiration;
      if 0 < next then ResetTimerfd(s, next) else s
  }

  /** handleRead after its last callback. */
  function End(s: State): State {
    if !s.calling || s.ran < |s.expired| then s
    else
      var r := ResetLoop(s.(calling := false, ran := 0));
      if r.fault then r else Rearm(r)
  }

  function Perform(s: State, c: Call): State {
    match c
    case New(a, when, interval, repeat) => NewTimer(s, a, when, interval, repeat)
    case Add(a) => AddTimerInLoop(s, a)
    case ReadId(q) => FinishAdd(s, q)
    case Cancel(id) => CancelInLoop(s, id)
    case Tick(d) => Pass(s, d)
  }

  function Step(s: State, e: Event): State {
    if s.fault then s
    else
      match e
      case User(c) => Perform(s, c)
      case BeginRead => Begin(s)
      case RunNext => Run1(s)
      case EndRead => End(s)
  }

  function Run(s: State, es: seq<Event>): State
    decreases |es|
  {
    if es == [] then s else Step(Run(s, es[..|es| - 1]), es[|es| - 1])
  }
}
