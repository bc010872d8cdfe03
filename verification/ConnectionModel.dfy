/** The output path of TcpConnection.cc: partial writes, the output buffer, and the half-close
    that waits for it to drain. Calls of send and shutdown on other threads are split where the
    loop or another thread can come in between; the functors they post wait in `queue`, which
    the event loop runs in posting order (see LoopTheorems.FunctorConservation). */
module ConnectionModel {
  import opened BufferModel
  import opened ConnectionStatus

  datatype Sender = LoopThread | Thread(id: nat)

  datatype Message = Message(sender: Sender, bytes: seq<byte>)

  datatype Task = SendTask(message: Message) | ShutdownTask

  // How far another thread is in its call of send or shutdown: the test of state_ has passed.
  datatype Pc =
    | ToSend(bytes: seq<byte>)   // sendInLoop is to be posted
    | ToSet                      // state_ is to be set to kDisconnecting
    | ToPost                     // shutdownInLoop is to be posted

  // What was true when the write side was shut down.
  datatype HalfClose = HalfClose(
    onWire: nat,       // bytes the kernel had accepted
    taken: nat,        // bytes given to sendInLoop
    sent: nat,         // bytes of all successful send calls
    waiting: nat,      // bytes in functors that had not run
    afterClose: bool,
    byWriter: bool)    // done by handleWrite

  datatype Completion = Completion(onWire: nat, taken: nat)

  datatype State = State(
    status: Status,
    reading: bool,
    writing: bool,
    out: Buf,
    queue: seq<Task>,
    midway: map<nat, Pc>,            // calls of other threads that have begun
    wire: seq<byte>,                 // what the kernel has accepted
    aborted: bool,                   // an assertion of Buffer failed
    // History; no step reads it.
    closed: bool,                    // handleClose has run
    taken: seq<Message>,             // the messages given to sendInLoop, in order
    stream: seq<byte>,               // their bytes
    calls: seq<Message>,             // calls of send on other threads that passed the test of state_
    issued: seq<Message>,            // those among them that have posted their message, in order
    sent: nat,                       // bytes accepted by send on any thread
    shutdowns: nat,                  // calls of shutdown that got to shutdownInLoop or its posting
    completions: seq<Completion>,    // write-complete callbacks queued
    halfCloses: seq<HalfClose>)      // shutdownWrite calls

  // `r` is what ::write would return on a socket whose write side is open.
  datatype Event =
    | Establish
    | Send(thread: nat, bytes: seq<byte>)   // send on another thread
    | SendHere(bytes: seq<byte>, r: int)    // send on the loop thread
    | Shutdown(thread: nat)                 // shutdown on another thread
    | Continue(thread: nat)                 // the next step of such a call
    | ShutdownHere
    | RunTask(r: int)                       // the loop runs the next posted functor
    | Writable(r: int)                      // handleWrite
    | Close                                 // handleClose
    | Destroy                               // connectDestroyed

  /** The messages of the sends among `ts`. */
  function Sends(ts: seq<Task>): seq<Message> {
    if ts == [] then []
    else (if ts[0].SendTask? then [ts[0].message] else []) + Sends(ts[1..])
  }

  /** The number of bytes in them. */
  function Waiting(ts: seq<Task>): nat {
    if ts == [] then 0
    else (if ts[0].SendTask? then |ts[0].message.bytes| else 0) + Waiting(ts[1..])
  }

  function Init(): State {
    State(Connecting, false, false, FRESH, [], map[], [], false, false, [], [], [], [], 0, 0, [], [])
  }

  /** ::write of `len` bytes: an error once the write side is shut down, else any count. */
  function Write(s: State, r: int, len: nat): (n: int)
    ensures -1 <= n <= len
  {
    if s.halfCloses != [] || r < 0 then -1 else if r < len then r else len
  }

  function Complete(s: State): State {
    s.(completions := s.completions + [Completion(|s.wire|, |s.stream|)])
  }

  function ShutdownInLoop(s: State, byWriter: bool): State {
    if s.writing then s
    else s.(halfCloses := s.halfCloses +
              [HalfClose(|s.wire|, |s.stream|, s.sent, Waiting(s.queue), s.closed, byWriter)])
  }

  /** Append what the socket did not take and ask for writability. */
  function Keep(s: State, rest: seq<byte>): State
    requires s.out.Ok()
  {
    if rest == [] then s
    else
      match Append(s.out, rest)
      case Abort => s.(aborted := true)
      case Done(b) => s.(out := b, writing := true)
  }

  /** History: `m` has been given to sendInLoop. */
  function Take(s: State, m: Message): State {
    s.(stream := s.stream + m.bytes, taken := s.taken + [m])
  }

  function SendInLoop(s: State, m: Message, r: int): State
    requires s.out.Ok()
  {
    var s1 := Take(s, m);
    if !s.writing && s.out.Readable() == 0 then
      var n := Write(s, r, |m.bytes|);
      if n < 0 then Keep(s1, m.bytes)
      else
        var s2 := s1.(wire := s.wire + m.bytes[..n]);
        if n < |m.bytes| then Keep(s2, m.bytes[n..]) else Complete(s2)
    else Keep(s1, m.bytes)
  }

  function HandleWrite(s: State, r: int): State
    requires s.out.Ok()
  {
    if !s.writing then s
    else
      var n := Write(s, r, s.out.Readable());
      if n <= 0 then s
      else
        var s1 := s.(wire := s.wire + s.out.Content()[..n], out := s.out.(reader := s.out.reader + n));
        if s1.out.Readable() != 0 then s1
        else
          var s2 := Complete(s1.(writing := false));
          if s.status.Disconnecting? then ShutdownInLoop(s2, true) else s2
  }

  function RunFirst(s: State, r: int): State
    requires s.out.Ok()
  {
    if s.queue == [] then s
    else
      var s1 := s.(queue := s.queue[1..]);
      match s.queue[0]
      case SendTask(m) => SendInLoop(s1, m, r)
      case ShutdownTask => ShutdownInLoop(s1, false)
  }

  /** runInLoop of a functor on another thread. */
  function Post(s: State, task: Task): State {
    s.(queue := s.queue + [task],
       issued := if task.SendTask? then s.issued + [task.message] else s.issued,
       sent := s.sent + if task.SendTask? then |task.message.bytes| else 0,
       shutdowns := s.shutdowns + if task.ShutdownTask? then 1 else 0)
  }

  /** send and shutdown on another thread: the test of state_, then one step at a time. */
  function Call(s: State, thread: nat, pc: Pc): State {
    if s.status.Connected? && thread !in s.midway
    then s.(midway := s.midway[thread := pc],
            calls := if pc.ToSend? then s.calls + [Message(Thread(thread), pc.bytes)] else s.calls)
    else s
  }

  function Proceed(s: State, thread: nat): State {
    if thread !in s.midway then s
    else
      match s.midway[thread]
      case ToSend(bytes) => Post(s.(midway := s.midway - {thread}), SendTask(Message(Thread(thread), bytes)))
      case ToSet => s.(status := Disconnecting, midway := s.midway[thread := ToPost])
      case ToPost => Post(s.(midway := s.midway - {thread}), ShutdownTask)
  }

  /** History: send has accepted `bytes`. */
  function Accepted(s: State, bytes: seq<byte>): State {
    s.(sent := s.sent + |bytes|)
  }

  /** send and shutdown on the loop thread. */
  function SendOnLoop(s: State, bytes: seq<byte>, r: int): State
    requires s.out.Ok()
  {
    if s.status.Connected? then SendInLoop(Accepted(s, bytes), Message(LoopThread, bytes), r) else s
  }

  function ShutdownOnLoop(s: State): State {
    if s.status.Connected? then ShutdownInLoop(s.(status := Disconnecting, shutdowns := s.shutdowns + 1), false) else s
  }

  function HandleClose(s: State): State {
    if s.status.Connected? || s.status.Disconnecting?
    then s.(reading := false, writing := false, closed := true)
    else s
  }

  function ConnectDestroyed(s: State): State {
    if s.status.Connected? || s.status.Disconnecting?
    then s.(status := Disconnected, reading := false, writing := false, closed := true)
    else s
  }

  function Step(s: State, e: Event): State {
    if s.aborted || !s.out.Ok() then s
    else
      match e
      case Establish => if s.status.Connecting? then s.(status := Connected, reading := true) else s
      case Send(t, bytes) => Call(s, t, ToSend(bytes))
      case SendHere(bytes, r) => SendOnLoop(s, bytes, r)
      case Shutdown(t) => Call(s, t, ToSet)
      case Continue(t) => Proceed(s, t)
      case ShutdownHere => ShutdownOnLoop(s)
      case RunTask(r) => RunFirst(s, r)
      case Writable(r) => HandleWrite(s, r)
      case Close => HandleClose(s)
      case Destroy => ConnectDestroyed(s)
  }

  function Run(s: State, es: seq<Event>): State
    decreases |es|
  {
    if es == [] then s else Step(Run(s, es[..|es| - 1]), es[|es| - 1])
  }

  ghost predicate Reachable(s: State) {
    exists es :: s == Run(Init(), es)
  }
}

/** Stream conservation and the drain-before-half-close protocol, over whole runs. */
module ConnectionTheorems {
  import opened BufferModel
  import opened ConnectionStatus
  import opened ConnectionModel

  /** The unsent bytes. */
  function Unsent(s: State): seq<byte>
    requires s.out.Ok()
  {
    s.out.Content()
  }

  ghost predicate StreamOk(s: State) {
    s.out.Ok() && s.wire + Unsent(s) == s.stream
  }

  function Flatten(ms: seq<Message>): seq<byte> {
    if ms == [] then [] else Flatten(ms[..|ms| - 1]) + ms[|ms| - 1].bytes
  }

  /** Those of `ms` that were sent on other threads. */
  function FromThreads(ms: seq<Message>): seq<Message> {
    if ms == [] then []
    else FromThreads(ms[..|ms| - 1]) + if ms[|ms| - 1].sender.Thread? then [ms[|ms| - 1]] else []
  }

  /** What thread `t` sent, in order. */
  function OfThread(ms: seq<Message>, t: nat): seq<seq<byte>> {
    if ms == [] then []
    else OfThread(ms[..|ms| - 1], t) + if ms[|ms| - 1].sender == Thread(t) then [ms[|ms| - 1].bytes] else []
  }

  /** Messages from other threads: taken, or still posted, in posting order. */
  ghost predicate OrderOk(s: State) {
    && s.stream == Flatten(s.taken)
    && FromThreads(s.taken) + Sends(s.queue) == s.issued
    && s.sent == |s.stream| + Waiting(s.queue)
    && (forall t | t in s.queue && t.SendTask? :: t.message.sender.Thread?)
  }

  ghost predicate LogsOk(s: State) {
    && (forall c | c in s.completions :: c.onWire == c.taken)
    && (forall h | h in s.halfCloses :: h.sent == h.taken + h.waiting && (!h.afterClose ==> h.onWire == h.taken))
  }

  /** Until a close event the channel waits for writability exactly while bytes are unsent. */
  ghost predicate WritingOk(s: State) {
    !s.closed ==> (s.writing <==> s.out.Readable() != 0)
  }

  /** The shutdownInLoop functors in `ts`. */
  function Shutdowns(ts: seq<Task>): nat {
    if ts == [] then 0 else (if ts[0].ShutdownTask? then 1 else 0) + Shutdowns(ts[1..])
  }

  ghost predicate NoneToPost(m: map<nat, Pc>) {
    forall t | t in m :: !m[t].ToPost?
  }

  /** How often, and by whom, the write side has been shut down. */
  ghost predicate HalfCloseOk(s: State) {
    && (s.status.Connecting? ==> s.midway == map[])
    && (s.status.Connecting? || s.status.Connected? ==>
          s.halfCloses == [] && Shutdowns(s.queue) == 0 && NoneToPost(s.midway))
    && (forall i | 0 < i < |s.halfCloses| :: !s.halfCloses[i].byWriter)
    && |s.halfCloses| + Shutdowns(s.queue) <=
         s.shutdowns + if s.halfCloses != [] && s.halfCloses[0].byWriter then 1 else 0
  }

  ghost predicate Inv(s: State) {
    && s.out.Ok() && OrderOk(s)
    && (!s.aborted ==> StreamOk(s) && LogsOk(s) && WritingOk(s) && HalfCloseOk(s))
  }

  // ---- small facts ----------------------------------------------------------------------

  lemma {:induction false} SendsSnoc(ts: seq<Task>, t: Task)
    ensures Sends(ts + [t]) == Sends(ts) + if t.SendTask? then [t.message] else []
    ensures Waiting(ts + [t]) == Waiting(ts) + if t.SendTask? then |t.message.bytes| else 0
    ensures Shutdowns(ts + [t]) == Shutdowns(ts) + if t.ShutdownTask? then 1 else 0
    decreases |ts|
  {
    if ts == [] {
      assert [] + [t] == [t] && [t][1..] == [];
    } else {
      assert (ts + [t])[1..] == ts[1..] + [t] && (ts + [t])[0] == ts[0];
      SendsSnoc(ts[1..], t);
    }
  }

  lemma MessagesSnoc(ms: seq<Message>, m: Message)
    ensures Flatten(ms + [m]) == Flatten(ms) + m.bytes
    ensures FromThreads(ms + [m]) == FromThreads(ms) + if m.sender.Thread? then [m] else []
    ensures forall t :: OfThread(ms + [m], t) == OfThread(ms, t) + if m.sender == Thread(t) then [m.bytes] else []
  {
    assert (ms + [m])[..|ms|] == ms;
  }

  lemma Assoc(a: seq<byte>, b: seq<byte>, c: seq<byte>)
    ensures a + b + c == a + (b + c)
  {}

  lemma Cut(a: seq<byte>, n: nat)
    requires n <= |a|
    ensures a[..n] + a[n..] == a
  {}

  lemma CutAcross(wire: seq<byte>, unsent: seq<byte>, bytes: seq<byte>, n: nat)
    requires |unsent| == 0 && n <= |bytes|
    ensures wire + bytes[..n] + (unsent + bytes[n..]) == wire + unsent + bytes
  {
    assert unsent + bytes[n..] == bytes[n..] && wire + unsent == wire;
    Assoc(wire, bytes[..n], bytes[n..]);
    Cut(bytes, n);
  }

  // ---- sendInLoop -----------------------------------------------------------------------

  lemma KeepStream(s: State, rest: seq<byte>)
    requires s.out.Ok() && !s.aborted
    ensures var r := Keep(s, rest);
      && r.out.Ok() && r == s.(out := r.out, writing := r.writing, aborted := r.aborted)
      && (!r.aborted ==> Unsent(r) == Unsent(s) + rest && (r.writing <==> s.writing || rest != []))
  {
    AppendExact(s.out, rest);
  }

  /** What sendInLoop does to the stream. */
  ghost predicate Sent(s: State, m: Message, t: State) {
    && t == Take(s, m).(out := t.out, writing := t.writing, aborted := t.aborted, wire := t.wire,
                        completions := t.completions)
    && t.out.Ok()
    && (!t.aborted ==>
          && StreamOk(t)
          && (t.completions == s.completions ||
              (t.completions == s.completions + [Completion(|t.wire|, |t.stream|)] && t.out.Readable() == 0))
          && (WritingOk(s) ==> WritingOk(t)))
  }

  lemma SendBuffered(s: State, m: Message)
    requires StreamOk(s) && !s.aborted
    ensures Sent(s, m, Keep(Take(s, m), m.bytes))
  {
    KeepStream(Take(s, m), m.bytes);
    Assoc(s.wire, Unsent(s), m.bytes);
  }

  lemma SendDirect(s: State, m: Message, n: nat)
    requires StreamOk(s) && !s.aborted && !s.writing && s.out.Readable() == 0 && n < |m.bytes|
    ensures Sent(s, m, Keep(Take(s, m).(wire := s.wire + m.bytes[..n]), m.bytes[n..]))
  {
    KeepStream(Take(s, m).(wire := s.wire + m.bytes[..n]), m.bytes[n..]);
    CutAcross(s.wire, Unsent(s), m.bytes, n);
  }

  lemma SendStream(s: State, m: Message, r: int)
    requires StreamOk(s) && !s.aborted
    ensures Sent(s, m, SendInLoop(s, m, r))
  {
    var n := Write(s, r, |m.bytes|);
    if !s.writing && s.out.Readable() == 0 && 0 <= n {
      if n < |m.bytes| {
        SendDirect(s, m, n);
      } else {
        assert m.bytes[..n] == m.bytes && Unsent(s) == [];
      }
    } else {
      SendBuffered(s, m);
    }
  }

  // ---- handleWrite ----------------------------------------------------------------------

  /** What handleWrite does to the stream. */
  ghost predicate Drained(s: State, t: State) {
    && t == s.(out := t.out, writing := t.writing, wire := t.wire, completions := t.completions, halfCloses := t.halfCloses)
    && StreamOk(t)
    && (t.completions == s.completions ||
        (t.completions == s.completions + [Completion(|t.wire|, |t.stream|)] && t.out.Readable() == 0))
    && (t.halfCloses == s.halfCloses ||
        (s.halfCloses == [] && s.status.Disconnecting? && t.out.Readable() == 0 && !t.writing &&
         t.halfCloses == [HalfClose(|t.wire|, |t.stream|, s.sent, Waiting(s.queue), s.closed, true)]))
    && (WritingOk(s) ==> WritingOk(t))
    && (t.writing ==> s.writing)
  }

  /** The socket has taken the first `n` unsent bytes. */
  function Taken(s: State, n: nat): State
    requires s.out.Ok() && n <= s.out.Readable()
  {
    s.(wire := s.wire + Unsent(s)[..n], out := s.out.(reader := s.out.reader + n))
  }

  lemma TakenStream(s: State, n: nat)
    requires StreamOk(s) && n <= s.out.Readable()
    ensures StreamOk(Taken(s, n))
  {
    var c := Unsent(s);
    assert Unsent(Taken(s, n)) == c[n..];
    Cut(c, n);
    Assoc(s.wire, c[..n], c[n..]);
  }

  lemma HandleWriteStream(s: State, r: int)
    requires StreamOk(s)
    ensures Drained(s, HandleWrite(s, r))
  {
    var n := Write(s, r, s.out.Readable());
    if s.writing && 0 < n {
      TakenStream(s, n);
    }
  }

  // ---- every step -----------------------------------------------------------------------

  lemma SendStep(s: State, m: Message, r: int)
    requires StreamOk(s) && !s.aborted && LogsOk(s) && WritingOk(s)
    ensures var t := SendInLoop(s, m, r);
      && t.out.Ok() && (!t.aborted ==> StreamOk(t) && LogsOk(t) && WritingOk(t))
      && t == Take(s, m).(out := t.out, writing := t.writing, aborted := t.aborted, wire := t.wire,
                          completions := t.completions)
  {
    SendStream(s, m, r);
    assert StreamOk(SendInLoop(s, m, r)) && SendInLoop(s, m, r).out.Readable() == 0 ==>
      |SendInLoop(s, m, r).wire| == |SendInLoop(s, m, r).stream|;
  }

  lemma QueueHead(s: State)
    requires OrderOk(s) && s.queue != []
    ensures s.queue[0].SendTask? ==>
      && s.queue[0].message.sender.Thread?
      && OrderOk(Take(s.(queue := s.queue[1..]), s.queue[0].message))
    ensures s.queue[0].ShutdownTask? ==> OrderOk(s.(queue := s.queue[1..]))
  {
    var q := s.queue[1..];
    assert s.queue == [s.queue[0]] + q;
    if s.queue[0].SendTask? {
      var m := s.queue[0].message;
      MessagesSnoc(s.taken, m);
      assert FromThreads(s.taken) + ([m] + Sends(q)) == FromThreads(s.taken) + [m] + Sends(q);
    } else {
      assert [] + Sends(q) == Sends(q);
    }
  }

  lemma RunSendStep(s: State, r: int)
    requires Inv(s) && !s.aborted && s.queue != [] && s.queue[0].SendTask?
    ensures Inv(RunFirst(s, r))
  {
    QueueHead(s);
    SendKeeps(s.(queue := s.queue[1..]), s.queue[0].message, r);
  }

  lemma SendKeeps(s: State, m: Message, r: int)
    requires StreamOk(s) && !s.aborted && LogsOk(s) && WritingOk(s) && HalfCloseOk(s) && OrderOk(Take(s, m))
    ensures Inv(SendInLoop(s, m, r))
  {
    SendStep(s, m, r);
    SentFrame(s, m, SendInLoop(s, m, r));
  }

  /** What sendInLoop does not touch. */
  lemma SentFrame(s: State, m: Message, t: State)
    requires OrderOk(Take(s, m)) && HalfCloseOk(s)
    requires t == Take(s, m).(out := t.out, writing := t.writing, aborted := t.aborted, wire := t.wire,
                              completions := t.completions)
    ensures OrderOk(t) && HalfCloseOk(t)
  {}

  lemma RunShutdownStep(s: State, r: int)
    requires Inv(s) && !s.aborted && s.queue != [] && s.queue[0].ShutdownTask?
    ensures Inv(RunFirst(s, r))
  {
    QueueHead(s);
    if !s.writing && !s.closed { assert Unsent(s) == []; }
  }

  lemma RunStep(s: State, r: int)
    requires Inv(s) && !s.aborted && s.queue != []
    ensures Inv(RunFirst(s, r))
  {
    if s.queue[0].SendTask? { RunSendStep(s, r); } else { RunShutdownStep(s, r); }
  }

  lemma HandleWriteStep(s: State, r: int)
    requires Inv(s) && !s.aborted
    ensures Inv(HandleWrite(s, r))
  {
    HandleWriteStream(s, r);
    var t := HandleWrite(s, r);
    if t.out.Readable() == 0 { assert Unsent(t) == []; }
  }

  lemma PostStep(s: State, task: Task)
    requires Inv(s) && !s.aborted
    requires if task.SendTask? then task.message.sender.Thread? else !s.status.Connecting? && !s.status.Connected?
    ensures Inv(Post(s, task))
  {
    SendsSnoc(s.queue, task);
    if task.SendTask? {
      var f := FromThreads(s.taken);
      assert f + (Sends(s.queue) + [task.message]) == f + Sends(s.queue) + [task.message];
    }
  }

  lemma CallStep(s: State, t: nat, pc: Pc)
    requires Inv(s) && !s.aborted && !pc.ToPost?
    ensures Inv(Call(s, t, pc))
  {}

  lemma ProceedStep(s: State, t: nat)
    requires Inv(s) && !s.aborted
    ensures Inv(Proceed(s, t))
  {
    if t in s.midway {
      var s1 := s.(midway := s.midway - {t});
      match s.midway[t]
      case ToSend(bytes) => PostStep(s1, SendTask(Message(Thread(t), bytes)));
      case ToSet =>
      case ToPost => PostStep(s1, ShutdownTask);
    }
  }

  /** While the channel does not wait for writability, and before a close, nothing is unsent. */
  lemma DrainedWhenIdle(s: State)
    requires Inv(s) && !s.aborted
    ensures !s.writing && !s.closed ==> s.wire == s.stream
  {
    if !s.writing && !s.closed { assert Unsent(s) == []; }
  }

  lemma ShutdownOnLoopStep(s: State)
    requires Inv(s) && !s.aborted
    ensures Inv(ShutdownOnLoop(s))
  {
    if !s.writing && !s.closed { assert Unsent(s) == []; }
  }

  lemma SendOnLoopStep(s: State, bytes: seq<byte>, r: int)
    requires Inv(s) && !s.aborted
    ensures Inv(SendOnLoop(s, bytes, r))
  {
    if s.status.Connected? {
      OwnSendReady(s, bytes);
      SendKeeps(Accepted(s, bytes), Message(LoopThread, bytes), r);
    }
  }

  /** What send on the loop thread does to the wire and the unsent bytes together. */
  lemma OwnSendGrows(s: State, bytes: seq<byte>, r: int)
    requires Inv(s) && !s.aborted
    ensures var t := SendOnLoop(s, bytes, r);
      && Inv(t)
      && (!t.aborted && s.status.Connected? ==> t.wire + Unsent(t) == s.wire + Unsent(s) + bytes)
  {
    SendOnLoopStep(s, bytes, r);
    if s.status.Connected? {
      SendStream(Accepted(s, bytes), Message(LoopThread, bytes), r);
    }
  }

  lemma OwnSendReady(s: State, bytes: seq<byte>)
    requires Inv(s) && !s.aborted
    ensures var s1 := Accepted(s, bytes);
      && StreamOk(s1) && LogsOk(s1) && WritingOk(s1) && HalfCloseOk(s1)
      && OrderOk(Take(s1, Message(LoopThread, bytes)))
  {
    TakeOwn(s, bytes);
  }

  lemma TakeOwn(s: State, bytes: seq<byte>)
    requires OrderOk(s)
    ensures OrderOk(Take(Accepted(s, bytes), Message(LoopThread, bytes)))
  {
    MessagesSnoc(s.taken, Message(LoopThread, bytes));
    assert FromThreads(s.taken) + [] == FromThreads(s.taken);
  }

  lemma CloseStep(s: State)
    requires Inv(s) && !s.aborted
    ensures Inv(HandleClose(s))
  {}

  lemma DestroyStep(s: State)
    requires Inv(s) && !s.aborted
    ensures Inv(ConnectDestroyed(s))
  {}

  lemma EstablishStep(s: State)
    requires Inv(s) && !s.aborted && s.status.Connecting?
    ensures Inv(s.(status := Connected, reading := true))
  {}

  lemma StepInv(s: State, e: Event)
    requires Inv(s)
    ensures Inv(Step(s, e))
  {
    if !s.aborted {
      match e
      case Send(t, bytes) => CallStep(s, t, ToSend(bytes));
      case Shutdown(t) => CallStep(s, t, ToSet);
      case Continue(t) => ProceedStep(s, t);
      case SendHere(bytes, r) => SendOnLoopStep(s, bytes, r);
      case ShutdownHere => ShutdownOnLoopStep(s);
      case RunTask(r) =>
        if s.queue != [] { RunStep(s, r); }
      case Writable(r) => HandleWriteStep(s, r);
      case Establish => if s.status.Connecting? { EstablishStep(s); }
      case Close => CloseStep(s);
      case Destroy => DestroyStep(s);
    }
  }

  lemma {:induction false} RunInv(es: seq<Event>)
    ensures Inv(Run(Init(), es))
    decreases |es|
  {
    if es != [] {
      RunInv(es[..|es| - 1]);
      StepInv(Run(Init(), es[..|es| - 1]), es[|es| - 1]);
    }
  }

  lemma ReachableInv(s: State)
    requires Reachable(s)
    ensures Inv(s)
  {
    var es :| s == Run(Init(), es);
    RunInv(es);
  }

  // ---- what holds of every run ----------------------------------------------------------

  /** Bytes on the wire followed by the unsent bytes are the messages in sendInLoop order, for
      any partial or failed writes; messages of other threads are taken in posting order. */
  lemma StreamConservation(s: State)
    requires Reachable(s) && !s.aborted
    ensures s.out.Ok() && s.wire + s.out.Content() == Flatten(s.taken)
    ensures FromThreads(s.taken) + Sends(s.queue) == s.issued
  {
    ReachableInv(s);
  }

  /** The message of a call that has not posted it yet. */
  function InFlight(m: map<nat, Pc>, t: nat): seq<seq<byte>> {
    if t in m && m[t].ToSend? then [m[t].bytes] else []
  }

  /** Every thread posts its messages in program order. */
  ghost predicate ProgramOk(s: State) {
    forall t :: OfThread(s.issued, t) + InFlight(s.midway, t) == OfThread(s.calls, t)
  }

  /** Nothing happened to the calls of other threads. */
  predicate SameCalls(s: State, r: State) {
    r.issued == s.issued && r.midway == s.midway && r.calls == s.calls
  }

  lemma KeepFrame(s: State, rest: seq<byte>)
    requires s.out.Ok()
    ensures SameCalls(s, Keep(s, rest))
  {}

  lemma SendFrame(s: State, m: Message, r: int)
    requires s.out.Ok()
    ensures SameCalls(s, SendInLoop(s, m, r))
  {
    var n := Write(s, r, |m.bytes|);
    KeepFrame(Take(s, m), m.bytes);
    if 0 <= n { KeepFrame(Take(s, m).(wire := s.wire + m.bytes[..n]), m.bytes[n..]); }
  }

  lemma OwnSendFrame(s: State, bytes: seq<byte>, r: int)
    requires s.out.Ok()
    ensures SameCalls(s, SendOnLoop(s, bytes, r))
  {
    SendFrame(Accepted(s, bytes), Message(LoopThread, bytes), r);
  }

  lemma WriteFrame(s: State, r: int)
    requires s.out.Ok()
    ensures SameCalls(s, HandleWrite(s, r))
  {}

  lemma RunFrame(s: State, r: int)
    requires s.out.Ok()
    ensures SameCalls(s, RunFirst(s, r))
  {
    if s.queue != [] && s.queue[0].SendTask? {
      SendFrame(s.(queue := s.queue[1..]), s.queue[0].message, r);
    }
  }

  predicate Quiet(e: Event) {
    e.Establish? || e.ShutdownHere? || e.Close? || e.Destroy?
  }

  lemma QuietFrame(s: State, e: Event)
    requires Quiet(e)
    ensures SameCalls(s, Step(s, e))
  {}

  lemma SameProgram(s: State, r: State)
    requires ProgramOk(s) && r.issued == s.issued && r.calls == s.calls
    requires forall u :: InFlight(r.midway, u) == InFlight(s.midway, u)
    ensures ProgramOk(r)
  {}

  lemma LoopProgram(s: State, e: Event)
    requires ProgramOk(s) && !s.aborted && s.out.Ok()
    requires !e.Send? && !e.Shutdown? && !e.Continue?
    ensures ProgramOk(Step(s, e))
  {
    match e {
      case RunTask(r) => RunFrame(s, r);
      case SendHere(bytes, r) => OwnSendFrame(s, bytes, r);
      case Writable(r) => WriteFrame(s, r);
      case _ => QuietFrame(s, e);
    }
    SameProgram(s, Step(s, e));
  }

  lemma CallProgram(s: State, t: nat, pc: Pc)
    requires ProgramOk(s)
    ensures ProgramOk(Call(s, t, pc))
  {
    if pc.ToSend? { MessagesSnoc(s.calls, Message(Thread(t), pc.bytes)); }
  }

  lemma ProceedProgram(s: State, t: nat)
    requires ProgramOk(s)
    ensures ProgramOk(Proceed(s, t))
  {
    if t in s.midway {
      if s.midway[t].ToSend? {
        PostProgram(s, t);
      } else {
        assert forall u :: InFlight(Proceed(s, t).midway, u) == InFlight(s.midway, u);
        SameProgram(s, Proceed(s, t));
      }
    }
  }

  lemma PostProgram(s: State, t: nat)
    requires ProgramOk(s) && t in s.midway && s.midway[t].ToSend?
    ensures ProgramOk(Proceed(s, t))
  {
    var r := Proceed(s, t);
    assert forall u | u != t :: InFlight(r.midway, u) == InFlight(s.midway, u);
    PostedProgram(s, r, t, [Message(Thread(t), s.midway[t].bytes)]);
  }

  lemma PostedProgram(s: State, r: State, t: nat, more: seq<Message>)
    requires ProgramOk(s) && |more| <= 1 && (more != [] ==> more[0].sender == Thread(t))
    requires r.issued == s.issued + more && r.calls == s.calls
    requires InFlight(s.midway, t) == (if more != [] then [more[0].bytes] else []) && InFlight(r.midway, t) == []
    requires forall u | u != t :: InFlight(r.midway, u) == InFlight(s.midway, u)
    ensures ProgramOk(r)
  {
    forall u
      ensures OfThread(r.issued, u) + InFlight(r.midway, u) == OfThread(r.calls, u)
    {
      PostedByOne(s.issued, more, t, u, InFlight(s.midway, u), InFlight(r.midway, u));
    }
  }

  /** At most one message, of thread `t`, has been posted and is no longer in flight. */
  lemma PostedByOne(issued: seq<Message>, more: seq<Message>, t: nat, u: nat, a: seq<seq<byte>>, b: seq<seq<byte>>)
    requires |more| <= 1 && (more != [] ==> more[0].sender == Thread(t))
    requires if u == t then b == [] && a == (if more != [] then [more[0].bytes] else []) else a == b
    ensures OfThread(issued + more, u) + b == OfThread(issued, u) + a
  {
    if more == [] {
      assert issued + more == issued;
    } else {
      MessagesSnoc(issued, more[0]);
      assert more == [more[0]];
    }
  }

  lemma StepProgram(s: State, e: Event)
    requires s.out.Ok() && ProgramOk(s)
    ensures ProgramOk(Step(s, e))
  {
    if !s.aborted {
      match e
      case Send(t, bytes) => CallProgram(s, t, ToSend(bytes));
      case Shutdown(t) => CallProgram(s, t, ToSet);
      case Continue(t) => ProceedProgram(s, t);
      case _ => LoopProgram(s, e);
    }
  }

  lemma {:induction false} RunProgram(es: seq<Event>)
    ensures ProgramOk(Run(Init(), es))
    decreases |es|
  {
    if es != [] {
      RunProgram(es[..|es| - 1]);
      RunInv(es[..|es| - 1]);
      StepProgram(Run(Init(), es[..|es| - 1]), es[|es| - 1]);
    }
  }

  lemma {:induction false} OfThreadFromThreads(ms: seq<Message>, t: nat)
    ensures OfThread(FromThreads(ms), t) == OfThread(ms, t)
    decreases |ms|
  {
    if ms != [] {
      var f := FromThreads(ms[..|ms| - 1]);
      OfThreadFromThreads(ms[..|ms| - 1], t);
      MessagesSnoc(f, ms[|ms| - 1]);
      assert f + [] == f;
    }
  }

  lemma {:induction false} OfThreadPrefix(a: seq<Message>, b: seq<Message>, t: nat)
    ensures OfThread(a, t) <= OfThread(a + b, t)
    decreases |b|
  {
    if b == [] {
      assert a + b == a;
    } else {
      var b' := b[..|b| - 1];
      assert a + b == (a + b') + [b[|b| - 1]];
      OfThreadPrefix(a, b', t);
      MessagesSnoc(a + b', b[|b| - 1]);
    }
  }

  /** The messages of one other thread enter the stream in the order in which it sent them. */
  lemma ThreadOrder(s: State, t: nat)
    requires Reachable(s) && !s.aborted
    ensures OfThread(s.taken, t) <= OfThread(s.calls, t)
  {
    var es :| s == Run(Init(), es);
    RunInv(es);
    RunProgram(es);
    OfThreadFromThreads(s.taken, t);
    OfThreadPrefix(FromThreads(s.taken), Sends(s.queue), t);
    assert OfThread(s.issued, t) + InFlight(s.midway, t) == OfThread(s.calls, t);
  }

  lemma WritingWhileUnsent(s: State)
    requires Reachable(s) && !s.aborted && !s.closed
    ensures s.writing <==> s.wire != s.stream
  {
    ReachableInv(s);
    assert |s.wire + Unsent(s)| == |s.wire| + s.out.Readable();
  }

  /** Every write-complete callback is queued at a moment when nothing is left unsent. */
  lemma CompletionsWhenDrained(s: State, c: Completion)
    requires Reachable(s) && !s.aborted && c in s.completions
    ensures c.onWire == c.taken
  {
    ReachableInv(s);
  }

  /** Before a close event the write side is shut down only when every byte given to sendInLoop
      is on the wire; it leaves out exactly the bytes that posted functors still hold. What is then
      lost for good, calls of send under way included, is HalfCloseTheorems.LosslessIff. */
  lemma HalfCloseWhenDrained(s: State, h: HalfClose)
    requires Reachable(s) && !s.aborted && h in s.halfCloses && !h.afterClose
    ensures h.onWire == h.taken
    ensures h.onWire == h.sent <==> h.waiting == 0
  {
    ReachableInv(s);
  }

  /** The write side is shut down at most once for each call of shutdown, and once more if
      handleWrite was first. */
  lemma HalfCloseBound(s: State)
    requires Reachable(s) && !s.aborted
    ensures |s.halfCloses| <= s.shutdowns + 1
    ensures |s.halfCloses| == s.shutdowns + 1 ==> s.halfCloses[0].byWriter
    ensures forall i | 0 < i < |s.halfCloses| :: !s.halfCloses[i].byWriter
  {
    ReachableInv(s);
  }

  /** The exact condition for another one. */
  lemma AnotherHalfCloseIff(s: State, e: Event)
    requires Reachable(s) && !s.aborted && s.halfCloses != []
    ensures |Step(s, e).halfCloses| != |s.halfCloses| <==>
      e.RunTask? && s.queue != [] && s.queue[0] == ShutdownTask && !s.writing
  {
    ReachableInv(s);
    match e
    case RunTask(r) =>
      if s.queue != [] && s.queue[0].SendTask? {
        SendStream(s.(queue := s.queue[1..]), s.queue[0].message, r);
      }
    case Writable(r) => HandleWriteStream(s, r);
    case _ =>
  }

  // ---- send and shutdown on the loop thread -----------------------------------------------

  /** Nothing is ever posted from another thread. */
  predicate Local(es: seq<Event>) {
    forall e | e in es :: !e.Send? && !e.Shutdown?
  }

  ghost predicate LocalOk(s: State) {
    && s.queue == [] && s.midway == map[]
    && |s.halfCloses| <= 1
    && (s.halfCloses != [] ==> !s.status.Connected? && !s.status.Connecting? && s.halfCloses[0].waiting == 0)
  }

  lemma LocalStep(s: State, e: Event)
    requires s.out.Ok() && StreamOk(s) && LocalOk(s) && !e.Send? && !e.Shutdown? && !s.aborted
    requires s.status.Connected? || s.status.Connecting? ==> s.halfCloses == []
    ensures LocalOk(Step(s, e))
  {
    match e
    case Writable(r) => LocalWrite(s, r);
    case SendHere(bytes, r) => LocalSend(s, bytes, r);
    case _ =>
  }

  lemma LocalWrite(s: State, r: int)
    requires StreamOk(s) && LocalOk(s)
    ensures LocalOk(HandleWrite(s, r))
  {
    HandleWriteStream(s, r);
  }

  lemma LocalSend(s: State, bytes: seq<byte>, r: int)
    requires StreamOk(s) && LocalOk(s) && !s.aborted
    ensures LocalOk(SendOnLoop(s, bytes, r))
  {
    SendStream(Accepted(s, bytes), Message(LoopThread, bytes), r);
  }

  lemma {:induction false} LocalRun(es: seq<Event>)
    requires Local(es)
    ensures LocalOk(Run(Init(), es))
    decreases |es|
  {
    if es != [] {
      var before := es[..|es| - 1];
      assert forall e | e in before :: e in es;
      LocalRun(before);
      RunInv(before);
      if !Run(Init(), before).aborted {
        LocalStep(Run(Init(), before), es[|es| - 1]);
      }
    }
  }

  /** With send and shutdown on the loop thread the write side is shut down at most once, and
      (before a close event) only after every byte sent so far is on the wire. */
  lemma LocalHalfClose(es: seq<Event>)
    requires Local(es)
    ensures var s := Run(Init(), es);
      && |s.halfCloses| <= 1
      && (!s.aborted ==> forall h | h in s.halfCloses && !h.afterClose :: h.onWire == h.sent)
  {
    LocalRun(es);
    RunInv(es);
    LocalLogs(Run(Init(), es));
  }

  lemma LocalLogs(s: State)
    requires Inv(s) && LocalOk(s)
    ensures !s.aborted ==> forall h | h in s.halfCloses && !h.afterClose :: h.onWire == h.sent
  {}

  // ---- send and shutdown on one other thread ----------------------------------------------

  /** All calls of send and shutdown are made by thread `t`. */
  predicate OnlyFrom(t: nat, es: seq<Event>) {
    forall e | e in es ::
      !e.SendHere? && !e.ShutdownHere? && (e.Send? ==> e.thread == t) && (e.Shutdown? ==> e.thread == t)
  }

  /** Its shutdown functor, if any, is the last it posts. */
  ghost predicate CallerOk(s: State, t: nat) {
    && (forall u | u in s.midway :: u == t)
    && s.shutdowns <= 1
    && (s.status.Connecting? || s.status.Connected? || t in s.midway ==> s.shutdowns == 0)
    && (t in s.midway && s.midway[t].ToPost? ==> !s.status.Connecting? && !s.status.Connected?)
    && (ShutdownTask in s.queue ==> s.shutdowns == 1)
    && (forall i | 0 <= i < |s.queue| - 1 :: !s.queue[i].ShutdownTask?)
    && (forall h | h in s.halfCloses :: h.byWriter || h.waiting == 0)
  }

  lemma CallerProceeds(s: State, t: nat)
    requires CallerOk(s, t)
    ensures CallerOk(Proceed(s, t), t)
  {}

  lemma CallerRuns(s: State, t: nat, r: int)
    requires StreamOk(s) && !s.aborted && CallerOk(s, t)
    ensures CallerOk(RunFirst(s, r), t)
  {
    if s.queue != [] {
      var s1 := s.(queue := s.queue[1..]);
      assert CallerOk(s1, t);
      if s.queue[0].SendTask? {
        SendStream(s1, s.queue[0].message, r);
      } else {
        assert s.queue[1..] == [];
      }
    }
  }

  lemma CallerStep(s: State, t: nat, e: Event)
    requires StreamOk(s) && !s.aborted && CallerOk(s, t) && OnlyFrom(t, [e])
    ensures CallerOk(Step(s, e), t)
  {
    assert e in [e];
    match e
    case Continue(u) => if u == t { CallerProceeds(s, t); }
    case RunTask(r) => CallerRuns(s, t, r);
    case Writable(r) => HandleWriteStream(s, r);
    case _ =>
  }

  lemma {:induction false} CallerRun(t: nat, es: seq<Event>)
    requires OnlyFrom(t, es)
    ensures CallerOk(Run(Init(), es), t)
    decreases |es|
  {
    if es != [] {
      var before := es[..|es| - 1];
      assert forall e | e in before :: e in es;
      CallerRun(t, before);
      RunInv(before);
      if !Run(Init(), before).aborted {
        assert es[|es| - 1] in es;
        CallerStep(Run(Init(), before), t, es[|es| - 1]);
      }
    }
  }

  /** With send and shutdown on one other thread the write side is shut down at most twice,
      first by handleWrite and then by the functor it overtook; and the functor, unlike
      handleWrite, never leaves a byte behind. */
  lemma OneCallerHalfClose(t: nat, es: seq<Event>)
    requires OnlyFrom(t, es) && !Run(Init(), es).aborted
    ensures var s := Run(Init(), es);
      && |s.halfCloses| <= 2
      && (|s.halfCloses| == 2 ==> s.halfCloses[0].byWriter && !s.halfCloses[1].byWriter)
      && (forall h | h in s.halfCloses && !h.afterClose && !h.byWriter :: h.onWire == h.sent)
  {
    CallerRun(t, es);
    RunInv(es);
    CallerLogs(Run(Init(), es), t);
  }

  lemma CallerLogs(s: State, t: nat)
    requires Inv(s) && !s.aborted && CallerOk(s, t)
    ensures |s.halfCloses| <= 2
    ensures |s.halfCloses| == 2 ==> s.halfCloses[0].byWriter && !s.halfCloses[1].byWriter
    ensures forall h | h in s.halfCloses && !h.afterClose && !h.byWriter :: h.onWire == h.sent
  {}

  lemma RunSnoc(es: seq<Event>, e: Event)
    ensures Run(Init(), es + [e]) == Step(Run(Init(), es), e)
  {
    assert (es + [e])[..|es|] == es;
  }

  /** Thread 1 posts one byte. */
  const POSTED: seq<Event> := [Establish] + [Send(1, [65])] + [Continue(1)]

  /** A call of thread 1 on an idle connection. */
  lemma PostSend(s: State, bytes: seq<byte>)
    requires s.status.Connected? && !s.aborted && s.out.Ok() && s.midway == map[] && s.queue == []
    ensures Step(Step(s, Send(1, bytes)), Continue(1)) ==
      Post(s.(calls := s.calls + [Message(Thread(1), bytes)]), SendTask(Message(Thread(1), bytes)))
  {
    assert map[1 := ToSend(bytes)] - {1} == map[];
  }

  lemma PostedState()
    ensures var m := Message(Thread(1), [65]);
      Run(Init(), POSTED) == Init().(status := Connected, reading := true, queue := [SendTask(m)], calls := [m], issued := [m], sent := 1)
  {
    RunSnoc([], Establish);
    assert [] + [Establish] == [Establish];
    RunSnoc([Establish], Send(1, [65]));
    RunSnoc([Establish] + [Send(1, [65])], Continue(1));
    PostSend(Run(Init(), [Establish]), [65]);
  }

  /** It is taken, and the socket refuses it. */
  lemma RefusedState()
    ensures var s := Run(Init(), POSTED + [RunTask(0)]);
      && s.status.Connected? && s.writing && !s.aborted && !s.closed && s.queue == [] && s.midway == map[]
      && s.halfCloses == [] && s.shutdowns == 0 && s.out.Ok() && s.out.Readable() == 1
  {
    PostedState();
    RunSnoc(POSTED, RunTask(0));
    var s := Run(Init(), POSTED);
    var s1 := Take(s.(queue := []), s.queue[0].message);
    assert s.queue[1..] == [];
    AppendExact(FRESH, [65]);
    assert s1.wire + [65][..0] == s1.wire && [65][0..] == [65];
    KeepStream(s1, [65]);
  }

  lemma PostShutdown(s: State)
    requires s.status.Connected? && !s.aborted && s.out.Ok() && s.midway == map[]
    ensures Step(Step(Step(s, Shutdown(1)), Continue(1)), Continue(1)) ==
      Post(s.(status := Disconnecting), ShutdownTask)
  {
    assert map[1 := ToSet][1 := ToPost] - {1} == map[];
  }

  const SECOND: seq<Event> := POSTED + [RunTask(0)] + [Send(1, [66])] + [Continue(1)]

  lemma SecondState()
    ensures var s := Run(Init(), SECOND);
      && s.status.Connected? && s.writing && !s.aborted && !s.closed && s.midway == map[]
      && s.queue == [SendTask(Message(Thread(1), [66]))]
      && s.halfCloses == [] && s.out.Ok() && s.out.Readable() == 1
  {
    RefusedState();
    var es := POSTED + [RunTask(0)];
    RunSnoc(es, Send(1, [66]));
    RunSnoc(es + [Send(1, [66])], Continue(1));
    PostSend(Run(Init(), es), [66]);
  }

  lemma ThenShutdown(es: seq<Event>)
    requires var s := Run(Init(), es); s.status.Connected? && !s.aborted && s.out.Ok() && s.midway == map[]
    ensures Run(Init(), es + [Shutdown(1)] + [Continue(1)] + [Continue(1)]) ==
      Post(Run(Init(), es).(status := Disconnecting), ShutdownTask)
  {
    RunSnoc(es, Shutdown(1));
    RunSnoc(es + [Shutdown(1)], Continue(1));
    RunSnoc(es + [Shutdown(1)] + [Continue(1)], Continue(1));
    PostShutdown(Run(Init(), es));
  }

  /** A second byte and the shutdown are posted, then the socket becomes writable before the
      functors run: the write side is shut down while the second byte still waits. */
  lemma EarlyHalfClose()
    ensures var s := Run(Init(), SECOND + [Shutdown(1)] + [Continue(1)] + [Continue(1)] + [Writable(1)]);
      && !s.aborted && !s.closed && |s.halfCloses| == 1
      && s.halfCloses[0].onWire < s.halfCloses[0].sent
  {
    SecondState();
    ThenShutdown(SECOND);
    var es := SECOND + [Shutdown(1)] + [Continue(1)] + [Continue(1)];
    RunSnoc(es, Writable(1));
    RunInv(es);
    OneByteWaits();
    WriterShuts(Run(Init(), es));
  }

  lemma OneByteWaits()
    ensures Waiting([SendTask(Message(Thread(1), [66]))] + [ShutdownTask]) == 1
  {
    SendsSnoc([SendTask(Message(Thread(1), [66]))], ShutdownTask);
    assert [SendTask(Message(Thread(1), [66]))][1..] == [];
  }

  /** handleWrite empties a one-byte buffer after shutdown. */
  lemma WriterShuts(s: State)
    requires Inv(s) && !s.aborted && !s.closed && s.status.Disconnecting? && s.writing && s.halfCloses == []
    requires s.out.Readable() == 1 && 0 < Waiting(s.queue)
    ensures var t := HandleWrite(s, 1);
      !t.aborted && !t.closed && |t.halfCloses| == 1 && t.halfCloses[0].onWire < t.halfCloses[0].sent
  {
    HandleWriteStep(s, 1);
    assert HandleWrite(s, 1).halfCloses[0] in HandleWrite(s, 1).halfCloses;
  }

  /** With no second message the same overtaking shuts the write side down twice. */
  lemma HalfCloseTwice()
    ensures var s := Run(Init(),
        POSTED + [RunTask(0)] + [Shutdown(1)] + [Continue(1)] + [Continue(1)] + [Writable(1)] + [RunTask(0)]);
      !s.aborted && !s.closed && |s.halfCloses| == 2
  {
    var es := POSTED + [RunTask(0)] + [Shutdown(1)] + [Continue(1)] + [Continue(1)];
    ClosingState();
    RunSnoc(es, Writable(1));
    RunSnoc(es + [Writable(1)], RunTask(0));
    RunInv(es);
    WriterOvertakes(Run(Init(), es));
  }

  lemma ClosingState()
    ensures var s := Run(Init(), POSTED + [RunTask(0)] + [Shutdown(1)] + [Continue(1)] + [Continue(1)]);
      && !s.aborted && !s.closed && s.status.Disconnecting? && s.writing && s.halfCloses == []
      && s.out.Ok() && s.out.Readable() == 1 && s.queue == [ShutdownTask]
  {
    RefusedState();
    ThenShutdown(POSTED + [RunTask(0)]);
    assert [] + [ShutdownTask] == [ShutdownTask];
  }

  lemma WriterOvertakes(s: State)
    requires Inv(s) && !s.aborted && !s.closed && s.status.Disconnecting? && s.writing && s.halfCloses == []
    requires s.out.Readable() == 1 && s.queue == [ShutdownTask]
    ensures var t := RunFirst(HandleWrite(s, 1), 0); !t.aborted && !t.closed && |t.halfCloses| == 2
  {
    HandleWriteStep(s, 1);
  }
}
