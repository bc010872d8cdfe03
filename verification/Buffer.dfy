/** The class Buffer: an array changed in place, with the overlapping move of
    ensureWritableBytes written out. */
module Buffers {
  import opened BufferModel
  import opened Numbers

  class Buffer {
    var buffer_: array<byte>
    var readerIndex: nat
    var writerIndex: nat

    ghost predicate Valid()
      reads this, buffer_
    {
      readerIndex <= writerIndex <= buffer_.Length
    }

    ghost function View(): Buf
      reads this, buffer_
    {
      Buf(buffer_[..], readerIndex, writerIndex)
    }

    ghost function Contents(): (c: seq<byte>)
      requires Valid()
      reads this, buffer_
    {
      View().Content()
    }

    constructor ()
      ensures Valid() && fresh(buffer_) && View() == FRESH && Contents() == []
    {
      buffer_ := new byte[CHEAP_PREPEND + INITIAL_SIZE](_ => 0);
      readerIndex, writerIndex := CHEAP_PREPEND, CHEAP_PREPEND;
    }

    /** std::copy within the vector; source and destination may overlap. */
    method MoveDown(to: nat, from: nat, n: nat)
      requires to <= from && from + n <= buffer_.Length
      modifies buffer_
      ensures buffer_[..] == Blit(old(buffer_[..]), to, old(buffer_[from..from + n]))
    {
      ghost var was := buffer_[..];
      var i := 0;
      while i < n
        invariant 0 <= i <= n
        invariant forall k | to <= k < to + i :: buffer_[k] == was[k - to + from]
        invariant forall k | 0 <= k < to || to + i <= k < buffer_.Length :: buffer_[k] == was[k]
      {
        buffer_[to + i] := buffer_[from + i];
        i := i + 1;
      }
    }

    /** std::copy of foreign bytes into the vector. */
    method CopyIn(at: nat, bytes: seq<byte>)
      requires at + |bytes| <= buffer_.Length
      modifies buffer_
      ensures buffer_[..] == Blit(old(buffer_[..]), at, bytes)
    {
      var i := 0;
      while i < |bytes|
        invariant 0 <= i <= |bytes|
        invariant forall k | 0 <= k < buffer_.Length ::
          buffer_[k] == if at <= k < at + i then bytes[k - at] else old(buffer_[k])
      {
        buffer_[at + i] := bytes[i];
        i := i + 1;
      }
    }

    /** vector::resize to a larger size. */
    method Grow(size: nat)
      requires buffer_.Length <= size
      modifies this`buffer_
      ensures fresh(buffer_)
      ensures buffer_[..] == old(buffer_[..]) + Zeros(size - old(buffer_.Length))
    {
      var a := new byte[size](_ => 0);
      var i := 0;
      while i < buffer_.Length
        invariant 0 <= i <= buffer_.Length && a.Length == size && fresh(a)
        invariant buffer_ == old(buffer_) && buffer_[..] == old(buffer_[..])
        invariant forall k | 0 <= k < size :: a[k] == if k < i then buffer_[k] else 0
      {
        a[i] := buffer_[i];
        i := i + 1;
      }
      assert a[..] == buffer_[..] + Zeros(size - buffer_.Length);
      buffer_ := a;
    }

    method EnsureWritableBytes(len: nat) returns (ok: bool)
      requires Valid()
      modifies this, buffer_
      ensures ok == EnsureWritable(old(View()), len).Done?
      ensures ok ==> Valid() && View() == EnsureWritable(old(View()), len).buf
      ensures buffer_ == old(buffer_) || fresh(buffer_)
    {
      ghost var v := View();
      if buffer_.Length - writerIndex < len {
        if buffer_.Length - writerIndex + readerIndex < len {
          Grow(writerIndex + len);
        } else {
          if readerIndex <= CHEAP_PREPEND {
            return false;
          }
          var readable := writerIndex - readerIndex;
          assert v.Content() == buffer_[readerIndex..readerIndex + readable];
          MoveDown(CHEAP_PREPEND, readerIndex, readable);
          readerIndex := CHEAP_PREPEND;
          writerIndex := readerIndex + readable;
        }
      }
      ok := len <= buffer_.Length - writerIndex;
    }

    /** append: what the outcome says in terms of the readable bytes alone. */
    method Append(bytes: seq<byte>) returns (ok: bool)
      requires Valid()
      modifies this, buffer_
      ensures ok == BufferModel.Append(old(View()), bytes).Done?
      ensures ok ==> Valid() && View() == BufferModel.Append(old(View()), bytes).buf
      ensures ok ==> Contents() == old(Contents()) + bytes
      ensures !ok <==> Max(old(View().Writable()), old(View().Writable() + View().Prependable()) - 8) < |bytes|
                       <= old(View().Writable() + View().Prependable())
      ensures buffer_ == old(buffer_) || fresh(buffer_)
    {
      AppendExact(View(), bytes);
      EnsureWritableKeeps(View(), |bytes|);
      ok := EnsureWritableBytes(|bytes|);
      if ok {
        CopyIn(writerIndex, bytes);
        writerIndex := writerIndex + |bytes|;
      }
    }

    method Retrieve(len: nat) returns (ok: bool)
      requires Valid()
      modifies this`readerIndex
      ensures Valid() && ok == (len <= |old(Contents())|)
      ensures Contents() == if ok then old(Contents())[len..] else old(Contents())
    {
      ok := len <= writerIndex - readerIndex;
      if ok {
        readerIndex := readerIndex + len;
      }
    }

    method RetrieveAsString() returns (str: seq<byte>)
      requires Valid()
      modifies this`readerIndex
      ensures Valid() && str == old(Contents()) && Contents() == []
    {
      str := buffer_[readerIndex..writerIndex];
      readerIndex := writerIndex;
    }

    method Prepend(bytes: seq<byte>) returns (ok: bool)
      requires Valid()
      modifies this`readerIndex, buffer_
      ensures Valid() && ok == (|bytes| <= old(readerIndex))
      ensures Contents() == if ok then bytes + old(Contents()) else old(Contents())
    {
      PrependExact(View(), bytes);
      ok := |bytes| <= readerIndex;
      if ok {
        readerIndex := readerIndex - |bytes|;
        CopyIn(readerIndex, bytes);
      }
    }

    /** shrink, which leaves both indices alone. */
    method Shrink(reserve: nat)
      requires Valid()
      modifies this`buffer_
      ensures View() == BufferModel.Shrink(old(View()), reserve)
      ensures fresh(buffer_)
    {
      var c := buffer_[readerIndex..writerIndex];
      var a := new byte[CHEAP_PREPEND + |c| + reserve](_ => 0);
      forall i | 0 <= i < |c| {
        a[CHEAP_PREPEND + i] := c[i];
      }
      assert a[..] == Zeros(CHEAP_PREPEND) + c + Zeros(reserve);
      buffer_ := a;
    }

    /** readFd: `received` is what readv delivered when it did not fail. */
    method ReadFd(failed: bool, received: seq<byte>) returns (n: int, ok: bool)
      requires Valid() && |received| <= View().Writable() + EXTRA_SIZE
      modifies this, buffer_
      ensures failed ==> ok && n == -1 && Valid() && View() == old(View())
      ensures !failed ==> n == |received| && ok == BufferModel.ReadFd(old(View()), received).Done?
      ensures !failed && ok ==> Valid() && Contents() == old(Contents()) + received
      ensures !failed && ok ==> View() == BufferModel.ReadFd(old(View()), received).buf
      ensures buffer_ == old(buffer_) || fresh(buffer_)
    {
      ok := true;
      if failed {
        n := -1;
        return;
      }
      n := |received|;
      ReadFdExact(View(), received);
      var writable := buffer_.Length - writerIndex;
      if n <= writable {
        CopyIn(writerIndex, received);
        writerIndex := writerIndex + n;
      } else {
        CopyIn(writerIndex, received[..writable]);
        writerIndex := buffer_.Length;
        ok := Append(received[writable..]);
      }
    }
  }
}
