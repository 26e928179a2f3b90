/**
 The growable two-index byte buffer of src/net/buffer.h and the two-part read of src/net/buffer.cpp.

   0 <= CHEAP_PREPEND <= reader <= writer <= buffer.Length

 The readable bytes `buffer[reader..writer]` are the buffer's value; every operation is specified by
 what it does to them, so the class refines a plain byte queue.
 */
module ByteBuffer {
  import opened Bytes

  const CHEAP_PREPEND: nat := 8
  const INITIAL_SIZE: nat := 1024
  const EXTRA_SIZE: nat := 65536
  const INT_MAX: nat := 0x7fff_ffff

  const INT_RANGE: nat := 0x1_0000_0000
  const SIZE_RANGE: nat := 0x1_0000_0000_0000_0000
  const SMALL: nat := 0x4000_0000_0000_0000  // no real vector comes near this

  /** The vector's size and the two indexes. */
  datatype Layout = Layout(size: nat, reader: nat, writer: nat)

  /** A length passed as an `int`, and an `int` used as a `size_t`. */
  function ToInt(len: nat): (i: int)
    ensures len <= INT_MAX ==> i == len
  {
    var m := len % INT_RANGE;
    if m <= INT_MAX then m else m - INT_RANGE
  }

  function ToSize(i: int): (n: nat)
    ensures 0 <= i < SIZE_RANGE ==> n == i
  {
    i % SIZE_RANGE
  }

  /** ensure_writable_bytes with the source's integer types: `None` when the vector refuses the size. */
  function EnsureRoom(b: Layout, len: nat): (r: Option<Layout>)
    requires b.reader <= b.writer <= b.size
  {
    if len <= b.size - b.writer then Some(b)
    else
      var n := ToInt(len);
      if b.size - b.writer + b.reader < ToSize(n + CHEAP_PREPEND) then
        var size := ToSize(b.writer + n);
        if size < SIZE_RANGE / 2 then Some(b.(size := size)) else None
      else Some(Layout(b.size, CHEAP_PREPEND, CHEAP_PREPEND + b.writer - b.reader))
  }

  /** Every length an `int` can hold.  Beyond that it is luck: the tail is already long enough, or the
      bytes fit after compaction and the truncated length does not send the code into the growing branch. */
  predicate Room(b: Layout, len: nat) {
    || len <= INT_MAX
    || len <= b.size - b.writer
    || (-8 <= ToInt(len) && len + CHEAP_PREPEND <= b.size - b.writer + b.reader)
  }

  /** This is exactly when making room works. */
  lemma RoomIff(b: Layout, len: nat)
    requires CHEAP_PREPEND <= b.reader <= b.writer <= b.size < SMALL && len < SMALL
    ensures var r := EnsureRoom(b, len);
            (r.Some? && r.value.writer <= r.value.size && len <= r.value.size - r.value.writer) <==> Room(b, len)
  {
    var n := ToInt(len);
    if len > b.size - b.writer {
      if n + CHEAP_PREPEND < 0 {
        assert ToSize(n + CHEAP_PREPEND) == SIZE_RANGE + n + CHEAP_PREPEND;
      }
      if b.writer + n < 0 {
        assert ToSize(b.writer + n) == SIZE_RANGE + b.writer + n;
      }
    }
  }

  class Buffer {
    var buffer: array<char>
    var reader: nat
    var writer: nat

    ghost predicate Valid()
      reads this
    {
      CHEAP_PREPEND <= reader <= writer <= buffer.Length
    }

    ghost function Contents(): (s: string)
      requires Valid()
      reads this, buffer
    {
      buffer[reader..writer]
    }

    ghost function Shape(): (b: Layout)
      reads this
    {
      Layout(buffer.Length, reader, writer)
    }

    /** The most bytes one `readv` may deliver: the tail, and the side area when the tail is small. */
    function ReadCapacity(): (n: nat)
      requires Valid()
      reads this
    {
      var writable := buffer.Length - writer;
      if writable < EXTRA_SIZE then writable + EXTRA_SIZE else writable
    }

    constructor (initialSize: nat)
      ensures Valid() && Contents() == [] && fresh(buffer)
    {
      buffer := new char[CHEAP_PREPEND + initialSize];
      reader, writer := CHEAP_PREPEND, CHEAP_PREPEND;
    }

    method ReadableBytes() returns (n: nat)
      requires Valid()
      ensures n == |Contents()|
    {
      n := writer - reader;
    }

    /** A copy of the first `len` readable bytes. */
    method Peek(len: nat) returns (s: string)
      requires Valid() && len <= |Contents()|
      ensures s == Contents()[..len]
    {
      s := buffer[reader..reader + len];
    }

    method RetrieveAll()
      requires Valid()
      modifies this`reader, this`writer
      ensures Valid() && Contents() == []
    {
      reader, writer := CHEAP_PREPEND, CHEAP_PREPEND;
    }

    /** Drops `len` bytes from the front; anything at or past the end empties the buffer. */
    method Retrieve(len: nat)
      requires Valid()
      modifies this`reader, this`writer
      ensures Valid()
      ensures Contents() == Drop(old(Contents()), len)
    {
      if len < writer - reader {
        reader := reader + len;
      } else {
        RetrieveAll();
      }
    }

    method RetrieveAsString(len: nat) returns (s: string)
      requires Valid() && len <= |Contents()|
      modifies this`reader, this`writer
      ensures Valid() && s == old(Contents())[..len] && Contents() == old(Contents())[len..]
    {
      s := Peek(len);
      Retrieve(len);
    }

    /** std::search over the readable bytes. */
    method FindCRLF() returns (at: Option<nat>)
      requires Valid()
      ensures at == FindCrlf(Contents())
    {
      ghost var s := Contents();
      var i := 0;
      while i < writer - reader
        invariant 0 <= i <= |s| && s == Contents()
        invariant forall j :: 0 <= j < i ==> !CrlfAt(s, j)
      {
        assert s[i] == buffer[reader + i] && (i + 1 < |s| ==> s[i + 1] == buffer[reader + i + 1]);
        if i + 1 < writer - reader && buffer[reader + i] == '\r' && buffer[reader + i + 1] == '\n' {
          assert CrlfAt(s, i);
          return Some(i);
        }
        i := i + 1;
      }
      return None;
    }

    /** vector::resize to a larger size. */
    method Grow(size: nat)
      requires Valid() && buffer.Length <= size
      modifies this`buffer
      ensures Valid() && fresh(buffer) && buffer.Length == size
      ensures Contents() == old(Contents())
    {
      var bigger := new char[size];
      forall i | 0 <= i < size {
        bigger[i] := if i < buffer.Length then buffer[i] else '\0';
      }
      buffer := bigger;
    }

    /** The overlapping move of the readable bytes to the front of the vector (std::copy, forwards). */
    method Compact()
      requires Valid()
      modifies this`reader, this`writer, buffer
      ensures Valid() && Shape() == Layout(buffer.Length, CHEAP_PREPEND, CHEAP_PREPEND + old(writer - reader))
      ensures Contents() == old(Contents())
    {
      ghost var s := Contents();
      var readable := writer - reader;
      var i := 0;
      while i < readable
        invariant 0 <= i <= readable
        invariant unchanged(this)
        invariant buffer[CHEAP_PREPEND..CHEAP_PREPEND + i] == s[..i]
        invariant forall k :: i <= k < readable ==> buffer[reader + k] == s[k]
      {
        buffer[CHEAP_PREPEND + i] := buffer[reader + i];
        i := i + 1;
      }
      reader := CHEAP_PREPEND;
      writer := reader + readable;
    }

    /** The length comes as an `int`; it may have been truncated. */
    method MakeSpace(len: int)
      requires Valid() && -8 <= len <= INT_MAX
      modifies this, buffer
      ensures Valid() && (buffer == old(buffer) || fresh(buffer))
      ensures Shape() == if old(buffer.Length - writer + reader) < len + CHEAP_PREPEND
                         then Layout(old(writer) + len, old(reader), old(writer))
                         else Layout(old(buffer.Length), CHEAP_PREPEND, CHEAP_PREPEND + old(writer - reader))
      ensures Contents() == old(Contents())
    {
      if buffer.Length - writer + reader < len + CHEAP_PREPEND {
        Grow(writer + len);
      } else {
        Compact();
      }
    }

    method EnsureWritableBytes(len: nat)
      requires Valid() && Room(Shape(), len)
      modifies this, buffer
      ensures Valid() && (buffer == old(buffer) || fresh(buffer))
      ensures len <= buffer.Length - writer
      ensures Contents() == old(Contents())
      ensures old(buffer.Length) < SMALL ==> EnsureRoom(old(Shape()), len) == Some(Shape())
    {
      if buffer.Length - writer < len {
        MakeSpace(ToInt(len));
      }
    }

    method Append(data: string)
      requires Valid() && Room(Shape(), |data|)
      modifies this, buffer
      ensures Valid() && (buffer == old(buffer) || fresh(buffer))
      ensures Contents() == old(Contents()) + data
    {
      EnsureWritableBytes(|data|);
      CopyTo(buffer, reader, writer, data);
      writer := writer + |data|;
    }

    /** The kernel's `readv`: fills the writable tail first and the side area with what is left. */
    method Readv(data: string, extra: array<char>) returns (first: nat)
      requires Valid() && extra != buffer && extra.Length == EXTRA_SIZE && |data| <= ReadCapacity()
      modifies buffer, extra
      ensures first == if |data| <= buffer.Length - writer then |data| else buffer.Length - writer
      ensures buffer[reader..writer + first] == old(Contents()) + data[..first]
      ensures |data| - first <= EXTRA_SIZE && extra[..|data| - first] == data[first..]
    {
      first := if |data| <= buffer.Length - writer then |data| else buffer.Length - writer;
      CopyTo(buffer, reader, writer, data[..first]);
      CopyTo(extra, 0, 0, data[first..]);
    }

    /** Reads into the writable tail and a 64 KiB side area; the spilled part is then appended.
        `delivered` is what the kernel returns: an error, or some bytes within the two areas. */
    method ReadFd(delivered: Option<string>) returns (n: int)
      requires Valid()
      requires delivered.Some? ==> |delivered.value| <= ReadCapacity()
      modifies this, buffer
      ensures Valid() && (buffer == old(buffer) || fresh(buffer))
      ensures n == if delivered.Some? then |delivered.value| else -1
      ensures Contents() == old(Contents()) + if delivered.Some? then delivered.value else []
    {
      if delivered.None? {
        return -1;
      }
      var data := delivered.value;
      var extra := new char[EXTRA_SIZE];
      var first := Readv(data, extra);
      n := |data|;
      writer := writer + first;
      if first < n {
        Append(extra[..n - first]);
        Reassociate(old(Contents()), data[..first], data[first..]);
      }
      assert data == data[..first] + data[first..];
    }

    /** Runs any sequence of calls; the log records what each one did in queue terms. */
    method Drive(calls: seq<Call>) returns (log: seq<QueueOp>)
      requires Valid()
      requires forall i :: 0 <= i < |calls| && calls[i].Append? ==> |calls[i].data| <= INT_MAX
      modifies this, buffer
      ensures Valid() && |log| == |calls|
      ensures forall i :: 0 <= i < |calls| ==> Performs(calls[i], log[i])
      ensures Contents() == QueueRun(old(Contents()), log)
    {
      log := [];
      ghost var q := Contents();
      for i := 0 to |calls|
        invariant Valid() && |log| == i
        invariant buffer == old(buffer) || fresh(buffer)
        invariant forall k :: 0 <= k < i ==> Performs(calls[k], log[k])
        invariant Contents() == QueueRun(q, log)
      {
        var op := Perform(calls[i]);
        QueueRunMore(q, log, op);
        log := log + [op];
      }
    }

    /** One call. */
    method Perform(call: Call) returns (op: QueueOp)
      requires Valid() && (call.Append? ==> |call.data| <= INT_MAX)
      modifies this, buffer
      ensures Valid() && (buffer == old(buffer) || fresh(buffer))
      ensures Performs(call, op) && Contents() == QueueStep(old(Contents()), op)
    {
      match call {
        case Append(data) =>
          Append(data);
          op := Push(data);
        case Retrieve(len) =>
          Retrieve(len);
          op := Pop(len);
        case ReadFd(offered) =>
          var n := if |offered| <= ReadCapacity() then |offered| else ReadCapacity();
          var m := ReadFd(Some(offered[..n]));
          op := Push(offered[..n]);
      }
    }
  }

  /** std::copy of `data` to `a[at..]`; `from` marks where the bytes of interest before it begin. */
  method CopyTo(a: array<char>, from: nat, at: nat, data: string)
    requires from <= at && at + |data| <= a.Length
    modifies a
    ensures a[from..at + |data|] == old(a[from..at]) + data
  {
    ghost var kept := a[from..at];
    for i := 0 to |data|
      invariant a[from..at + i] == kept + data[..i]
    {
      a[at + i] := data[i];
      assert a[from..at + i + 1] == a[from..at + i] + [data[i]];
    }
    assert data[..|data|] == data;
  }

  function Drop(s: string, len: nat): (r: string) {
    if len < |s| then s[len..] else []
  }

  datatype Call = Append(data: string) | Retrieve(len: nat) | ReadFd(offered: string)

  datatype QueueOp = Push(data: string) | Pop(len: nat)

  predicate Performs(call: Call, op: QueueOp) {
    match call
    case Append(data) => op == Push(data)
    case Retrieve(len) => op == Pop(len)
    case ReadFd(offered) => op.Push? && op.data <= offered
  }

  /** The plain byte queue: push at the back, pop from the front. */
  function QueueStep(q: string, op: QueueOp): (r: string) {
    match op
    case Push(data) => q + data
    case Pop(len) => Drop(q, len)
  }

  function QueueRun(q: string, ops: seq<QueueOp>): (r: string) {
    if ops == [] then q else QueueStep(QueueRun(q, ops[..|ops| - 1]), ops[|ops| - 1])
  }

  lemma QueueRunMore(q: string, ops: seq<QueueOp>, op: QueueOp)
    ensures QueueRun(q, ops + [op]) == QueueStep(QueueRun(q, ops), op)
  {
    assert (ops + [op])[..|ops|] == ops;
  }

  function Pushed(ops: seq<QueueOp>): (r: string) {
    if ops == [] then []
    else
      Pushed(ops[..|ops| - 1]) +
      match ops[|ops| - 1]
      case Push(data) => data
      case Pop(_) => []
  }

  function Popped(q: string, ops: seq<QueueOp>): (r: string) {
    if ops == [] then []
    else
      var before := QueueRun(q, ops[..|ops| - 1]);
      Popped(q, ops[..|ops| - 1]) +
      match ops[|ops| - 1]
      case Push(_) => []
      case Pop(len) => if len < |before| then before[..len] else before
  }

  /** First in, first out, over any history: what has left followed by what remains is what came in. */
  lemma {:induction false} Fifo(q: string, ops: seq<QueueOp>)
    ensures Popped(q, ops) + QueueRun(q, ops) == q + Pushed(ops)
  {
    if ops == [] {
      assert Popped(q, ops) == "" && Pushed(ops) == "";
    } else {
      var init := ops[..|ops| - 1];
      Fifo(q, init);
      match ops[|ops| - 1]
      case Push(data) => PushKeepsOrder(Popped(q, init), QueueRun(q, init), q, Pushed(init), data);
      case Pop(len) =>
        PopKeepsOrder(Popped(q, init), QueueRun(q, init), len);
        assert Pushed(ops) == Pushed(init) + "" == Pushed(init);
    }
  }

  lemma PushKeepsOrder(gone: string, before: string, q: string, into: string, data: string)
    requires gone + before == q + into
    ensures (gone + "") + (before + data) == q + (into + data)
  {
    Reassociate(gone, before, data);
    Reassociate(q, into, data);
    assert gone + "" == gone;
  }

  lemma PopKeepsOrder(gone: string, before: string, len: nat)
    ensures (gone + if len < |before| then before[..len] else before) + Drop(before, len) == gone + before
  {
    var cut := if len < |before| then len else |before|;
    assert before == before[..cut] + Drop(before, len) && before[..|before|] == before;
    Reassociate(gone, before[..cut], Drop(before, len));
  }
}
