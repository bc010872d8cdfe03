/** The class TcpConnection over the class Buffer. Its public methods keep the invariant of
    `ConnectionTheorems`; the helpers below them are proved against the transitions they carry
    out on the buffers in place. */
module TcpConnections {
  import opened BufferModel
  import opened ConnectionStatus
  import opened ConnectionModel
  import opened Buffers
  import CT = ConnectionTheorems
  import OT = OutputTheorems

  /** The state after the first half of sendInLoop, in which the socket took `n` bytes. */
  ghost function FirstHalf(s: State, m: Message, n: int, direct: bool): State
    requires n <= |m.bytes|
  {
    var s1 := Take(s, m).(wire := s.wire + if n < 0 then [] else m.bytes[..n]);
    if direct && n == |m.bytes| then Complete(s1) else s1
  }

  lemma Halves(s: State, m: Message, r: int, n: int, direct: bool)
    requires s.out.Ok() && (direct <==> !s.writing && s.out.Readable() == 0)
    requires n == if direct then Write(s, r, |m.bytes|) else 0
    ensures var t := FirstHalf(s, m, n, direct); var k := if n < 0 then 0 else n;
      SendInLoop(s, m, r) == if k < |m.bytes| then Keep(t, m.bytes[k..]) else t
  {
    assert m.bytes[0..] == m.bytes && m.bytes[..0] == [] && s.wire + [] == s.wire;
  }

  class TcpConnection {
    var state_: Status
    var reading: bool
    var writing: bool
    var inputBuffer: Buffer
    var outputBuffer: Buffer
    // Environment: the functors posted to the loop and the bytes the kernel has taken.
    var queue: seq<Task>
    var midway: map<nat, Pc>
    var wire: seq<byte>
    var writeClosed: bool          // shutdownWrite has been called
    ghost var log: State           // carries the history fields

    ghost predicate Layout()
      reads this, outputBuffer, outputBuffer.buffer_, inputBuffer, inputBuffer.buffer_
    {
      && outputBuffer.Valid() && inputBuffer.Valid()
      && inputBuffer != outputBuffer && inputBuffer.buffer_ != outputBuffer.buffer_
      && (writeClosed <==> log.halfCloses != [])
    }

    /** Moreover every byte is accounted for, and the channel, the logs and the half-closes are as
        ConnectionTheorems says. */
    ghost predicate Valid()
      reads this, outputBuffer, outputBuffer.buffer_, inputBuffer, inputBuffer.buffer_
    {
      Layout() && CT.Inv(Abs())
    }

    ghost function Abs(): State
      reads this, outputBuffer, outputBuffer.buffer_
    {
      log.(status := state_, reading := reading, writing := writing, out := outputBuffer.View(),
           queue := queue, midway := midway, wire := wire, aborted := false)
    }

    constructor ()
      ensures Valid() && Abs() == Init() && fresh(outputBuffer) && fresh(outputBuffer.buffer_)
    {
      state_, reading, writing := Connecting, false, false;
      inputBuffer := new Buffer();
      outputBuffer := new Buffer();
      queue, midway, wire, writeClosed := [], map[], [], false;
      log := Init();
    }

    // ---- on the loop thread -----------------------------------------------------------------

    method ConnectEstablished()
      requires Valid() && state_.Connecting?
      modifies this`state_, this`reading
      ensures Valid() && Abs() == Step(old(Abs()), Establish)
    {
      CT.EstablishStep(Abs());
      state_ := Connected;
      reading := true;
    }

    /** send on the loop thread; `ok` is false when the output buffer aborts. */
    method SendHere(bytes: seq<byte>, r: int) returns (ok: bool)
      requires Valid()
      modifies this`wire, this`writing, this`log, outputBuffer, outputBuffer.buffer_
      ensures ok == !SendOnLoop(old(Abs()), bytes, r).aborted
      ensures ok ==> Valid() && Abs() == SendOnLoop(old(Abs()), bytes, r)
      ensures ok && state_.Connected? ==>
        wire + outputBuffer.Contents() == old(wire + outputBuffer.Contents()) + bytes
    {
      CT.OwnSendGrows(Abs(), bytes, r);
      ok := SendNow(bytes, r);
    }

    /** shutdown on the loop thread. */
    method ShutdownHere()
      requires Valid()
      modifies this`state_, this`writeClosed, this`log
      ensures Valid() && Abs() == ShutdownOnLoop(old(Abs()))
      ensures !state_.Connected?
      ensures writeClosed == (old(writeClosed) || (old(state_).Connected? && !writing))
      ensures writeClosed && !old(writeClosed) && !log.closed ==> wire == log.stream
    {
      CT.ShutdownOnLoopStep(Abs());
      CT.DrainedWhenIdle(Abs());
      ShutdownNow();
    }

    /** The loop runs the next posted functor. */
    method RunFunctor(r: int) returns (ok: bool)
      requires Valid() && queue != []
      modifies this`queue, this`wire, this`writing, this`writeClosed, this`log, outputBuffer, outputBuffer.buffer_
      ensures ok == !RunFirst(old(Abs()), r).aborted
      ensures ok ==> Valid() && Abs() == RunFirst(old(Abs()), r)
    {
      CT.RunStep(Abs(), r);
      ok := RunHead(r);
    }

    /** handleWrite: a prefix of the unsent bytes moves to the wire, and the last of them brings the
        write-complete callback and, after shutdown, the half-close. */
    method HandleWrite(r: int)
      requires Valid()
      modifies this`wire, this`writing, this`writeClosed, this`log, outputBuffer
      ensures Valid() && Abs() == ConnectionModel.HandleWrite(old(Abs()), r)
      ensures wire + outputBuffer.Contents() == old(wire + outputBuffer.Contents())
      ensures OT.Written(old(Abs()), r, Abs())
    {
      OT.HandleWriteExact(Abs(), r);
      CT.HandleWriteStep(Abs(), r);
      CT.HandleWriteStream(Abs(), r);
      Drain(r);
    }

    /** handleClose: no byte is touched, and handleWrite does nothing from now on. */
    method HandleClose()
      requires Valid() && (state_.Connected? || state_.Disconnecting?)
      modifies this`reading, this`writing, this`log
      ensures Valid() && Abs() == ConnectionModel.HandleClose(old(Abs()))
      ensures forall r :: ConnectionModel.HandleWrite(Abs(), r) == Abs()
    {
      CT.CloseStep(Abs());
      Detach();
    }

    method ConnectDestroyed()
      requires Valid() && (state_.Connected? || state_.Disconnecting?)
      modifies this`state_, this`reading, this`writing, this`log
      ensures Valid() && Abs() == ConnectionModel.ConnectDestroyed(old(Abs()))
      ensures forall r :: ConnectionModel.HandleWrite(Abs(), r) == Abs()
      ensures forall r, bytes :: SendOnLoop(Abs(), bytes, r) == Abs()
    {
      CT.DestroyStep(Abs());
      state_ := Disconnected;
      Detach();
    }

    /** handleRead: what the message callback sees, and when the peer's close is handled. */
    method HandleRead(failed: bool, received: seq<byte>) returns (delivered: bool, ok: bool)
      requires Valid() && (state_.Connected? || state_.Disconnecting?)
      requires |received| <= inputBuffer.View().Writable() + EXTRA_SIZE
      modifies this`reading, this`writing, this`log, inputBuffer, inputBuffer.buffer_
      ensures ok ==> Valid()
      ensures delivered ==> ok && !failed && received != [] && Abs() == old(Abs())
      ensures delivered ==> inputBuffer.Contents() == old(inputBuffer.Contents()) + received
      ensures !failed && received == [] ==> ok && Abs() == ConnectionModel.HandleClose(old(Abs()))
      ensures failed ==> ok && Abs() == old(Abs())
      ensures !failed && ok && received != [] ==> delivered
    {
      var n;
      n, ok := inputBuffer.ReadFd(failed, received);
      delivered := ok && 0 < n;
      if ok && n == 0 {
        HandleClose();
      }
    }

    // ---- on other threads -------------------------------------------------------------------

    /** A whole call of send on another thread. */
    method Send(thread: nat, bytes: seq<byte>)
      requires Valid() && thread !in midway
      modifies this`queue, this`midway, this`log
      ensures Valid() && midway == old(midway)
      ensures Abs() == Proceed(Call(old(Abs()), thread, ToSend(bytes)), thread)
    {
      CT.CallStep(Abs(), thread, ToSend(bytes));
      CT.ProceedStep(Call(Abs(), thread, ToSend(bytes)), thread);
      assert midway[thread := ToSend(bytes)] - {thread} == midway;
      if state_.Connected? {
        log := log.(calls := log.calls + [Message(Thread(thread), bytes)]);
        Post(SendTask(Message(Thread(thread), bytes)));
      }
    }

    /** A whole call of shutdown on another thread. */
    method Shutdown(thread: nat)
      requires Valid() && thread !in midway
      modifies this`state_, this`queue, this`midway, this`log
      ensures Valid() && midway == old(midway)
      ensures Abs() == Proceed(Proceed(Call(old(Abs()), thread, ToSet), thread), thread)
    {
      CT.CallStep(Abs(), thread, ToSet);
      CT.ProceedStep(Call(Abs(), thread, ToSet), thread);
      CT.ProceedStep(Proceed(Call(Abs(), thread, ToSet), thread), thread);
      assert midway[thread := ToSet][thread := ToPost] - {thread} == midway;
      if state_.Connected? {
        state_ := Disconnecting;
        Post(ShutdownTask);
      }
    }

    // ---- helpers ----------------------------------------------------------------------------

    /** ::write, whose result on an open socket is `r`. */
    method WriteSocket(bytes: seq<byte>, r: int) returns (n: int)
      requires Layout()
      modifies this`wire
      ensures Layout() && n == Write(old(Abs()), r, |bytes|)
      ensures wire == old(wire) + if n < 0 then [] else bytes[..n]
    {
      if writeClosed || r < 0 {
        return -1;
      }
      n := if r < |bytes| then r else |bytes|;
      wire := wire + bytes[..n];
    }

    /** The end of sendInLoop: append what is left and ask for writability. */
    method KeepRest(rest: seq<byte>) returns (ok: bool)
      requires Layout()
      modifies this`writing, outputBuffer, outputBuffer.buffer_
      ensures ok == !Keep(old(Abs()), rest).aborted
      ensures ok ==> Layout() && Abs() == Keep(old(Abs()), rest)
      ensures outputBuffer.buffer_ == old(outputBuffer.buffer_) || fresh(outputBuffer.buffer_)
    {
      ok := true;
      if 0 < |rest| {
        ok := outputBuffer.Append(rest);
        if ok && !writing {
          writing := true;
        }
      }
    }

    /** Writes only when nothing is waiting. */
    method WriteIfIdle(bytes: seq<byte>, r: int) returns (n: int, direct: bool)
      requires Layout()
      modifies this`wire
      ensures Layout() && direct == (!writing && outputBuffer.View().Readable() == 0)
      ensures n == (if direct then Write(old(Abs()), r, |bytes|) else 0)
      ensures wire == old(wire) + if n < 0 then [] else bytes[..n]
    {
      n := 0;
      direct := !writing && outputBuffer.writerIndex - outputBuffer.readerIndex == 0;
      if direct {
        n := WriteSocket(bytes, r);
      }
    }

    /** The first half of sendInLoop: write directly if nothing is waiting. What is left for the
        second half is `m.bytes[nwrote..]`. */
    method WriteFirst(m: Message, r: int) returns (nwrote: nat)
      requires Layout()
      modifies this`wire, this`log
      ensures Layout() && nwrote <= |m.bytes|
      ensures ConnectionModel.SendInLoop(old(Abs()), m, r) ==
        if nwrote < |m.bytes| then Keep(Abs(), m.bytes[nwrote..]) else Abs()
    {
      ghost var s := Abs();
      var n, direct := WriteIfIdle(m.bytes, r);
      log := Take(log, m);
      if direct && n == |m.bytes| {
        log := log.(completions := log.completions + [Completion(|wire|, |log.stream|)]);
      }
      nwrote := if n < 0 then 0 else n;
      assert Abs() == FirstHalf(s, m, n, direct);
      Halves(s, m, r, n, direct);
    }

    /** sendInLoop; `ok` is false when the output buffer aborts. */
    method SendInLoop(m: Message, r: int) returns (ok: bool)
      requires Layout()
      modifies this`wire, this`writing, this`log, outputBuffer, outputBuffer.buffer_
      ensures ok == !ConnectionModel.SendInLoop(old(Abs()), m, r).aborted
      ensures ok ==> Layout() && Abs() == ConnectionModel.SendInLoop(old(Abs()), m, r)
      ensures outputBuffer.buffer_ == old(outputBuffer.buffer_) || fresh(outputBuffer.buffer_)
    {
      var nwrote := WriteFirst(m, r);
      ok := true;
      if nwrote < |m.bytes| {
        ok := KeepRest(m.bytes[nwrote..]);
      }
    }

    /** send on the loop thread runs sendInLoop at once. */
    method SendNow(bytes: seq<byte>, r: int) returns (ok: bool)
      requires Layout()
      modifies this`wire, this`writing, this`log, outputBuffer, outputBuffer.buffer_
      ensures ok == !SendOnLoop(old(Abs()), bytes, r).aborted
      ensures ok ==> Layout() && Abs() == SendOnLoop(old(Abs()), bytes, r)
    {
      ok := true;
      if state_.Connected? {
        log := Accepted(log, bytes);
        assert Abs() == Accepted(old(Abs()), bytes);
        ok := SendInLoop(Message(LoopThread, bytes), r);
      }
    }

    method ShutdownNow()
      requires Layout()
      modifies this`state_, this`writeClosed, this`log
      ensures Layout() && Abs() == ShutdownOnLoop(old(Abs()))
      ensures writeClosed == (old(writeClosed) || (old(state_).Connected? && !writing))
    {
      if state_.Connected? {
        state_ := Disconnecting;
        log := log.(shutdowns := log.shutdowns + 1);
        ShutdownInLoop(false);
      }
    }

    method RunHead(r: int) returns (ok: bool)
      requires Layout() && queue != []
      modifies this`queue, this`wire, this`writing, this`writeClosed, this`log, outputBuffer, outputBuffer.buffer_
      ensures ok == !RunFirst(old(Abs()), r).aborted
      ensures ok ==> Layout() && Abs() == RunFirst(old(Abs()), r)
    {
      var task := queue[0];
      queue := queue[1..];
      ok := true;
      match task {
        case SendTask(m) => ok := SendInLoop(m, r);
        case ShutdownTask => ShutdownInLoop(false);
      }
    }

    method ShutdownInLoop(ghost byWriter: bool)
      requires Layout()
      modifies this`writeClosed, this`log
      ensures writeClosed == (old(writeClosed) || !writing)
      ensures Layout() && Abs() == ConnectionModel.ShutdownInLoop(old(Abs()), byWriter)
    {
      if !writing {
        log := ConnectionModel.ShutdownInLoop(Abs(), byWriter);
        writeClosed := true;
      }
    }

    /** runInLoop of sendInLoop or shutdownInLoop on another thread. */
    method Post(task: Task)
      requires Layout()
      modifies this`queue, this`log
      ensures Layout() && Abs() == ConnectionModel.Post(old(Abs()), task)
    {
      queue := queue + [task];
      log := ConnectionModel.Post(log, task);
    }

    method Drain(r: int)
      requires Layout()
      modifies this`wire, this`writing, this`writeClosed, this`log, outputBuffer
      ensures Layout() && Abs() == ConnectionModel.HandleWrite(old(Abs()), r)
    {
      if writing {
        var pending := outputBuffer.buffer_[outputBuffer.readerIndex..outputBuffer.writerIndex];
        var n := WriteSocket(pending, r);
        if 0 < n {
          var _ := outputBuffer.Retrieve(n);
          if outputBuffer.writerIndex == outputBuffer.readerIndex {
            writing := false;
            log := log.(completions := log.completions + [Completion(|wire|, |log.stream|)]);
            if state_.Disconnecting? {
              ShutdownInLoop(true);
            }
          }
        }
      }
    }

    /** The channel stops waiting for anything. */
    method Detach()
      requires Layout()
      modifies this`reading, this`writing, this`log
      ensures Layout() && Abs() == old(Abs()).(reading := false, writing := false, closed := true)
    {
      reading, writing := false, false;
      log := log.(closed := true);
    }
  }
}
