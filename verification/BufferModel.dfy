/** Buffer.h and Buffer.cc over values: a cell vector with a reader and a writer index.
    A failed assertion of the source is the outcome `Abort`. */
module BufferModel {
  import opened Numbers

  newtype byte = x: int | 0 <= x < 256

  const CHEAP_PREPEND: nat := 8
  const INITIAL_SIZE: nat := 1024
  const EXTRA_SIZE: nat := 65536   // the stack area of readFd

  datatype Buf = Buf(cells: seq<byte>, reader: nat, writer: nat) {
    predicate Ok() { reader <= writer <= |cells| }
    function Writable(): int { |cells| - writer }
    function Prependable(): int { reader }
    function Readable(): int { writer - reader }
    function Content(): seq<byte>
      requires Ok()
    {
      cells[reader..writer]
    }
  }

  datatype Outcome = Abort | Done(buf: Buf)

  function Zeros(n: nat): seq<byte> { seq(n, _ => 0) }

  const FRESH: Buf := Buf(Zeros(CHEAP_PREPEND + INITIAL_SIZE), CHEAP_PREPEND, CHEAP_PREPEND)

  /** Overwrites the cells from `at` on. */
  function Blit(cells: seq<byte>, at: nat, bytes: seq<byte>): (r: seq<byte>)
    requires at + |bytes| <= |cells|
    ensures |r| == |cells|
    ensures forall i | 0 <= i < |r| :: r[i] == if at <= i < at + |bytes| then bytes[i - at] else cells[i]
  {
    cells[..at] + bytes + cells[at + |bytes|..]
  }

  function EnsureWritable(b: Buf, len: nat): Outcome
    requires b.Ok()
  {
    if len <= b.Writable() then Done(b)
    else if b.Writable() + b.Prependable() < len then
      Done(b.(cells := b.cells + Zeros(len - b.Writable())))
    else if b.reader <= CHEAP_PREPEND then Abort
    else
      var n := b.Readable();
      var moved := Buf(Blit(b.cells, CHEAP_PREPEND, b.Content()), CHEAP_PREPEND, CHEAP_PREPEND + n);
      if moved.Writable() < len then Abort else Done(moved)
  }

  function Append(b: Buf, bytes: seq<byte>): Outcome
    requires b.Ok()
  {
    EnsureWritableKeeps(b, |bytes|);
    match EnsureWritable(b, |bytes|)
    case Abort => Abort
    case Done(e) => Done(e.(cells := Blit(e.cells, e.writer, bytes), writer := e.writer + |bytes|))
  }

  function Retrieve(b: Buf, len: nat): Outcome {
    if b.Readable() < len then Abort else Done(b.(reader := b.reader + len))
  }

  function Prepend(b: Buf, bytes: seq<byte>): Outcome
    requires b.Ok()
  {
    if b.Prependable() < |bytes| then Abort
    else Done(b.(reader := b.reader - |bytes|, cells := Blit(b.cells, b.reader - |bytes|, bytes)))
  }

  /** readFd after a readv that returned `bytes`: the kernel fills the tail first, then the
      stack area, which is appended. */
  function ReadFd(b: Buf, bytes: seq<byte>): Outcome
    requires b.Ok() && |bytes| <= b.Writable() + EXTRA_SIZE
  {
    var w := b.Writable();
    if |bytes| <= w then
      Done(b.(cells := Blit(b.cells, b.writer, bytes), writer := b.writer + |bytes|))
    else
      Append(b.(cells := Blit(b.cells, b.writer, bytes[..w]), writer := |b.cells|), bytes[w..])
  }

  /** shrink replaces the cells and leaves both indices as they were. */
  function Shrink(b: Buf, reserve: nat): Buf
    requires b.Ok()
  {
    b.(cells := Zeros(CHEAP_PREPEND) + b.Content() + Zeros(reserve))
  }

  // ---- single operations ----------------------------------------------------------------

  lemma EnsureWritableKeeps(b: Buf, len: nat)
    requires b.Ok()
    ensures var o := EnsureWritable(b, len);
      o.Done? ==> o.buf.Ok() && o.buf.Content() == b.Content() && len <= o.buf.Writable()
  {
    var o := EnsureWritable(b, len);
    if o.Done? && o.buf != b {
      assert o.buf.Content() == b.Content();
    }
  }

  /** ensureWritableBytes compares with `len` where it needs `len` plus the prepend area, so its
      own assertions fail on a band of lengths, and nowhere else. */
  lemma EnsureWritableBand(b: Buf, len: nat)
    requires b.Ok()
    ensures EnsureWritable(b, len).Abort? <==>
      Max(b.Writable(), b.Writable() + b.Prependable() - 8) < len <= b.Writable() + b.Prependable()
  {}

  /** append is the queue's append, exactly outside the band. */
  lemma AppendExact(b: Buf, bytes: seq<byte>)
    requires b.Ok()
    ensures var o := Append(b, bytes);
      && (o.Abort? <==> Max(b.Writable(), b.Writable() + b.Prependable() - 8) < |bytes|
                        <= b.Writable() + b.Prependable())
      && (o.Done? ==> o.buf.Ok() && o.buf.Content() == b.Content() + bytes)
  {
    EnsureWritableKeeps(b, |bytes|);
    EnsureWritableBand(b, |bytes|);
    var o := Append(b, bytes);
    if o.Done? {
      var e := EnsureWritable(b, |bytes|).buf;
      assert e.Content() == b.Content();
      assert o.buf.Content() == e.Content() + bytes;
    }
  }

  /** On a fresh buffer the band is 1025 to 1032 bytes. */
  lemma FreshBand(bytes: seq<byte>)
    ensures Append(FRESH, bytes).Abort? <==> 1025 <= |bytes| <= 1032
  {
    AppendExact(FRESH, bytes);
  }

  /** readFd delivers exactly the bytes read, in order, for every split between the buffer tail
      and the stack area; it aborts exactly when the overflow falls in the band. */
  lemma ReadFdExact(b: Buf, bytes: seq<byte>)
    requires b.Ok() && |bytes| <= b.Writable() + EXTRA_SIZE
    ensures var o := ReadFd(b, bytes); var over := |bytes| - b.Writable();
      && (o.Abort? <==> Max(0, b.reader - 8) < over <= b.reader)
      && (o.Done? ==> o.buf.Ok() && o.buf.Content() == b.Content() + bytes)
  {
    var w := b.Writable();
    if |bytes| <= w {
      var cells := Blit(b.cells, b.writer, bytes);
      assert cells[b.reader..b.writer + |bytes|] == b.Content() + bytes;
    } else {
      var full := b.(cells := Blit(b.cells, b.writer, bytes[..w]), writer := |b.cells|);
      assert full.Content() == b.Content() + bytes[..w];
      AppendExact(full, bytes[w..]);
      assert bytes == bytes[..w] + bytes[w..];
      assert b.Content() + bytes[..w] + bytes[w..] == b.Content() + bytes;
    }
  }

  lemma PrependExact(b: Buf, bytes: seq<byte>)
    requires b.Ok()
    ensures var o := Prepend(b, bytes);
      && (o.Abort? <==> b.reader < |bytes|)
      && (o.Done? ==> o.buf.Ok() && o.buf.Content() == bytes + b.Content())
  {
    var o := Prepend(b, bytes);
    if o.Done? {
      assert o.buf.Content() == bytes + b.Content();
    }
  }

  /** The content with zeros on both sides. */
  function At(c: seq<byte>, i: int): byte {
    if 0 <= i < |c| then c[i] else 0
  }

  /** What stands at the old indices after shrink: the content, displaced by the distance of
      the reader index from its initial place. */
  lemma ShrinkDisplaces(b: Buf, reserve: nat)
    requires b.Ok() && b.reader <= CHEAP_PREPEND + reserve
    ensures var s := Shrink(b, reserve); var c := b.Content();
      && s.Ok() && |s.Content()| == |c|
      && (forall i | 0 <= i < |c| :: At(s.Content(), i) == At(c, i + b.reader - CHEAP_PREPEND))
  {
    var s := Shrink(b, reserve);
    assert forall j | 0 <= j < |s.cells| :: s.cells[j] == At(b.Content(), j - 8);
    assert forall i | 0 <= i < b.Readable() :: s.Content()[i] == s.cells[b.reader + i];
  }

  /** The indices stay within the new cells exactly when the reserve makes up for the bytes
      already consumed, and the content survives exactly when nothing was consumed or prepended,
      or every byte is zero. */
  lemma ShrinkExact(b: Buf, reserve: nat)
    requires b.Ok()
    ensures var s := Shrink(b, reserve);
      && (s.Ok() <==> b.reader <= CHEAP_PREPEND + reserve)
      && (s.Ok() ==> (s.Content() == b.Content() <==>
                      b.reader == CHEAP_PREPEND || forall i | 0 <= i < b.Readable() :: b.Content()[i] == 0))
  {
    if b.reader <= CHEAP_PREPEND + reserve {
      ShrinkDisplaces(b, reserve);
      DisplacedEqual(b.Content(), Shrink(b, reserve).Content(), b.reader - CHEAP_PREPEND);
    }
  }

  lemma DisplacedEqual(c: seq<byte>, d: seq<byte>, k: int)
    requires |d| == |c| && forall i | 0 <= i < |c| :: At(d, i) == At(c, i + k)
    ensures d == c <==> k == 0 || forall i | 0 <= i < |c| :: c[i] == 0
  {
    if d == c && k != 0 {
      forall i | 0 <= i < |c| ensures c[i] == 0 { PeriodicIsZero(c, k, i); }
    } else if k == 0 || forall i | 0 <= i < |c| :: c[i] == 0 {
      assert forall i | 0 <= i < |c| :: d[i] == At(d, i) == c[i];
    }
  }

  /** A finite sequence that equals its own displacement is zero throughout. */
  lemma {:induction false} PeriodicIsZero(c: seq<byte>, k: int, i: int)
    requires k != 0 && 0 <= i < |c| && forall i | 0 <= i < |c| :: At(c, i) == At(c, i + k)
    ensures c[i] == 0
    decreases if 0 < k then |c| - i else i
  {
    assert At(c, i) == At(c, i + k);
    if 0 <= i + k < |c| {
      PeriodicIsZero(c, k, i + k);
    }
  }

  // ---- whole runs -----------------------------------------------------------------------

  datatype Op =
    | DoAppend(bytes: seq<byte>)
    | DoRetrieve(len: nat)
    | DoPrepend(bytes: seq<byte>)
    | DoRead(bytes: seq<byte>)

  /** A readv never returns more than the two areas hold; such an event cannot occur. */
  function Apply(b: Buf, op: Op): Outcome
    requires b.Ok()
  {
    match op
    case DoAppend(bytes) => Append(b, bytes)
    case DoRetrieve(len) => Retrieve(b, len)
    case DoPrepend(bytes) => Prepend(b, bytes)
    case DoRead(bytes) => if |bytes| <= b.Writable() + EXTRA_SIZE then ReadFd(b, bytes) else Abort
  }

  /** The buffer after `ops`, or Abort as soon as one of them aborts. */
  function RunOps(ops: seq<Op>): (o: Outcome)
    ensures o.Done? ==> o.buf.Ok()
    decreases |ops|
  {
    if ops == [] then Done(FRESH)
    else
      match RunOps(ops[..|ops| - 1])
      case Abort => Abort
      case Done(b) =>
        ApplyRefines(b, ops[|ops| - 1]);
        Apply(b, ops[|ops| - 1])
  }

  /** The reference: a byte queue with no memory layout. */
  function QueueApply(q: seq<byte>, op: Op): seq<byte> {
    match op
    case DoAppend(bytes) => q + bytes
    case DoRetrieve(len) => if len <= |q| then q[len..] else []
    case DoPrepend(bytes) => bytes + q
    case DoRead(bytes) => q + bytes
  }

  function QueueRun(ops: seq<Op>): seq<byte>
    decreases |ops|
  {
    if ops == [] then [] else QueueApply(QueueRun(ops[..|ops| - 1]), ops[|ops| - 1])
  }

  /** The largest number of bytes the queue ever held. */
  function Peak(ops: seq<Op>): nat
    decreases |ops|
  {
    if ops == [] then 0 else Max(Peak(ops[..|ops| - 1]), |QueueRun(ops)|)
  }

  lemma ApplyRefines(b: Buf, op: Op)
    requires b.Ok()
    ensures var o := Apply(b, op);
      o.Done? ==> o.buf.Ok() && o.buf.Content() == QueueApply(b.Content(), op)
  {
    match op
    case DoAppend(bytes) => AppendExact(b, bytes);
    case DoRetrieve(len) =>
      if len <= b.Readable() { assert b.Content()[len..] == b.cells[b.reader + len..b.writer]; }
    case DoPrepend(bytes) => PrependExact(b, bytes);
    case DoRead(bytes) => if |bytes| <= b.Writable() + EXTRA_SIZE { ReadFdExact(b, bytes); }
  }

  /** Growing only happens when more than half of the new capacity is readable. */
  lemma ApplyCapacity(b: Buf, op: Op)
    requires b.Ok() && Apply(b, op).Done?
    ensures var r := Apply(b, op).buf; |r.cells| == |b.cells| || |r.cells| <= 2 * r.Readable()
  {
    EnsureWritableKeeps(b, match op case DoAppend(bytes) => |bytes| case _ => 0);
  }

  /** When an operation fails an assertion. */
  lemma ApplyAbortIff(b: Buf, op: Op)
    requires b.Ok()
    ensures op.DoAppend? ==> (Apply(b, op).Abort? <==>
      Max(b.Writable(), b.Writable() + b.Prependable() - 8) < |op.bytes| <= b.Writable() + b.Prependable())
    ensures op.DoRetrieve? ==> (Apply(b, op).Abort? <==> b.Readable() < op.len)
    ensures op.DoPrepend? ==> (Apply(b, op).Abort? <==> b.Prependable() < |op.bytes|)
    ensures op.DoRead? && |op.bytes| <= b.Writable() + 65536 ==> (Apply(b, op).Abort? <==>
      Max(0, b.reader - 8) < |op.bytes| - b.Writable() <= b.reader)
  {
    match op
    case DoAppend(bytes) => AppendExact(b, bytes);
    case DoRetrieve(_) =>
    case DoPrepend(_) =>
    case DoRead(bytes) => if |bytes| <= b.Writable() + EXTRA_SIZE { ReadFdExact(b, bytes); }
  }

  /** Where append leaves the bytes: in place if they fit; after a move to the front if the space
      before them makes up for it; otherwise the cells grow to end exactly where the bytes end. */
  lemma AppendLayout(b: Buf, bytes: seq<byte>)
    requires b.Ok() && Append(b, bytes).Done?
    ensures var r := Append(b, bytes).buf; var n := |bytes|; var w := b.Writable();
      && (n <= w ==> |r.cells| == |b.cells| && r.reader == b.reader && r.writer == b.writer + n)
      && (w < n <= w + b.reader ==>
            |r.cells| == |b.cells| && r.reader == CHEAP_PREPEND && r.writer == CHEAP_PREPEND + b.Readable() + n)
      && (w + b.reader < n ==> |r.cells| == r.writer == b.writer + n && r.reader == b.reader)
  {
    EnsureWritableKeeps(b, |bytes|);
  }

  /** The other operations: retrieve and prepend move the reader index only; readFd fills the tail
      and leaves the rest to append. */
  lemma OtherLayout(b: Buf, op: Op)
    requires b.Ok() && !op.DoAppend? && Apply(b, op).Done?
    ensures var r := Apply(b, op).buf;
      && (op.DoRetrieve? ==> r.cells == b.cells && r.writer == b.writer && r.reader == b.reader + op.len)
      && (op.DoPrepend? ==> |r.cells| == |b.cells| && r.writer == b.writer && r.reader == b.reader - |op.bytes|)
      && (op.DoRead? && |op.bytes| <= b.Writable() ==>
            |r.cells| == |b.cells| && r.reader == b.reader && r.writer == b.writer + |op.bytes|)
      && (op.DoRead? && b.reader < |op.bytes| - b.Writable() ==>
            |r.cells| == r.writer == b.writer + |op.bytes| && r.reader == b.reader)
  {
    if op.DoRead? && b.Writable() < |op.bytes| {
      var w := b.Writable();
      AppendLayout(b.(cells := Blit(b.cells, b.writer, op.bytes[..w]), writer := |b.cells|), op.bytes[w..]);
    }
  }

  /** Over every non-aborting run the buffer holds what the queue holds, and its capacity never
      exceeds the initial one or twice the most it ever held. */
  lemma {:induction false} BufferRefinesQueue(ops: seq<Op>)
    requires RunOps(ops).Done?
    ensures var b := RunOps(ops).buf;
      b.Content() == QueueRun(ops) && |b.cells| <= Max(1032, 2 * Peak(ops))
    decreases |ops|
  {
    if ops != [] {
      var before := ops[..|ops| - 1];
      BufferRefinesQueue(before);
      ApplyRefines(RunOps(before).buf, ops[|ops| - 1]);
      ApplyCapacity(RunOps(before).buf, ops[|ops| - 1]);
    }
  }
}
