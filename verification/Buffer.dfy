/**
 The three-zone byte buffer of muduo-cpp11/net/buffer.h and buffer.cpp:
 prependable bytes, readable bytes (the content) and writable bytes in one array.
 */
module ByteBuffer {
  import opened Text

  const CHEAP_PREPEND: nat := 8
  const INITIAL_SIZE: nat := 1024
  const EXTRA_SIZE: nat := 65536

  // ---------------------------------------------------------------- the layout

  /** The sizes of the zones, without the bytes. */
  datatype Layout = Layout(size: nat, reader: nat, writer: nat)
  {
    predicate Valid() { reader <= writer <= size && CHEAP_PREPEND <= size }
    function Readable(): nat requires Valid() { writer - reader }
    function Writable(): nat requires Valid() { size - writer }
  }

  function EmptyLayout(initialSize: nat): Layout {
    Layout(CHEAP_PREPEND + initialSize, CHEAP_PREPEND, CHEAP_PREPEND)
  }

  /** EnsureWritableBytes: nothing, a resize, or a compaction. */
  function Reserve(l: Layout, len: nat): (r: Layout)
    requires l.Valid()
    ensures r.Valid() && r.Readable() == l.Readable() && r.Writable() >= len && l.size <= r.size
  {
    if len <= l.Writable() then l
    else if l.Writable() + l.reader < len + CHEAP_PREPEND then l.(size := l.writer + len)
    else Layout(l.size, CHEAP_PREPEND, CHEAP_PREPEND + l.Readable())
  }

  function AppendLayout(l: Layout, len: nat): (r: Layout)
    requires l.Valid()
    ensures r.Valid() && r.Readable() == l.Readable() + len && l.size <= r.size
  {
    var g := Reserve(l, len);
    g.(writer := g.writer + len)
  }

  function RetrieveLayout(l: Layout, len: nat): (r: Layout)
    requires l.Valid() && len <= l.Readable()
    ensures r.Valid() && r.Readable() == l.Readable() - len && r.size == l.size
    ensures len == l.Readable() ==> r.Writable() == l.size - CHEAP_PREPEND
  {
    if len < l.Readable() then l.(reader := l.reader + len)
    else Layout(l.size, CHEAP_PREPEND, CHEAP_PREPEND)
  }

  function ReadFdLayout(l: Layout, n: nat): (r: Layout)
    requires l.Valid()
    ensures r.Valid() && r.Readable() == l.Readable() + n && l.size <= r.size
  {
    if n <= l.Writable() then l.(writer := l.writer + n)
    else AppendLayout(l.(writer := l.size), n - l.Writable())
  }

  function ShrinkLayout(l: Layout, reserve: nat): (r: Layout)
    requires l.Valid()
    ensures r.Valid() && r.Readable() == l.Readable()
  {
    AppendLayout(Reserve(EmptyLayout(INITIAL_SIZE), l.Readable() + reserve), l.Readable())
  }

  /** Shrinking leaves the default size, or exactly what the content and the reserve need. */
  lemma ShrinkSize(l: Layout, reserve: nat)
    requires l.Valid()
    ensures ShrinkLayout(l, reserve).size == CHEAP_PREPEND + Max(INITIAL_SIZE, l.Readable() + reserve)
  {
  }

  datatype Op =
    | AppendOp(len: nat)
    | RetrieveOp(len: nat)
    | PrependOp(len: nat)
    | UnwriteOp(len: nat)
    | ReadFdOp(len: nat)
    | EnsureOp(len: nat)
    | ShrinkOp(len: nat)

  predicate Allowed(l: Layout, op: Op)
    requires l.Valid()
  {
    match op
    case RetrieveOp(n) => n <= l.Readable()
    case UnwriteOp(n) => n <= l.Readable()
    case PrependOp(n) => n <= l.reader
    case _ => true
  }

  function Apply(l: Layout, op: Op): (r: Layout)
    requires l.Valid() && Allowed(l, op)
    ensures r.Valid()
  {
    match op
    case AppendOp(n) => AppendLayout(l, n)
    case RetrieveOp(n) => RetrieveLayout(l, n)
    case PrependOp(n) => l.(reader := l.reader - n)
    case UnwriteOp(n) => l.(writer := l.writer - n)
    case ReadFdOp(n) => ReadFdLayout(l, n)
    case EnsureOp(n) => Reserve(l, n)
    case ShrinkOp(n) => ShrinkLayout(l, n)
  }

  /** The readable length an operation needs room for: what it leaves readable, plus what it reserves. */
  function Demand(l: Layout, op: Op): nat
    requires l.Valid() && Allowed(l, op)
  {
    Apply(l, op).Readable() + (if op.EnsureOp? || op.ShrinkOp? then op.len else 0)
  }

  predicate Legal(l: Layout, ops: seq<Op>)
    requires l.Valid()
    decreases |ops|
  {
    ops != [] ==> Allowed(l, ops[0]) && Legal(Apply(l, ops[0]), ops[1..])
  }

  function Run(l: Layout, ops: seq<Op>): (r: Layout)
    requires l.Valid() && Legal(l, ops)
    ensures r.Valid()
    decreases |ops|
  {
    if ops == [] then l else Run(Apply(l, ops[0]), ops[1..])
  }

  function Max(a: nat, b: nat): nat { if a < b then b else a }

  /** The largest demand met along a run. */
  function Peak(l: Layout, ops: seq<Op>): nat
    requires l.Valid() && Legal(l, ops)
    decreases |ops|
  {
    if ops == [] then l.Readable()
    else Max(Max(l.Readable(), Demand(l, ops[0])), Peak(Apply(l, ops[0]), ops[1..]))
  }

  predicate Shrinks(ops: seq<Op>) { exists i :: 0 <= i < |ops| && ops[i].ShrinkOp? }

  /** What one resize may cost: a new size is at most twice the demand, plus 7. */
  lemma ReserveBound(l: Layout, len: nat)
    requires l.Valid()
    ensures var r := Reserve(l, len);
            r.size == l.size || r.size <= 2 * (l.Readable() + len) + CHEAP_PREPEND - 1
  {
  }

  lemma ApplyBound(l: Layout, op: Op, base: nat, peak: nat)
    requires l.Valid() && Allowed(l, op)
    requires l.size <= Max(base + CHEAP_PREPEND, 2 * peak + CHEAP_PREPEND - 1)
    requires op.ShrinkOp? ==> INITIAL_SIZE <= base
    requires Demand(l, op) <= peak
    ensures Apply(l, op).size <= Max(base + CHEAP_PREPEND, 2 * peak + CHEAP_PREPEND - 1)
  {
    match op
    case AppendOp(n) => ReserveBound(l, n);
    case EnsureOp(n) => ReserveBound(l, n);
    case ReadFdOp(n) =>
      if l.Writable() < n {
        ReserveBound(l.(writer := l.size), n - l.Writable());
      }
    case ShrinkOp(n) =>
      ReserveBound(EmptyLayout(INITIAL_SIZE), l.Readable() + n);
    case _ =>
  }

  lemma {:induction false} RunBound(l: Layout, ops: seq<Op>, base: nat, peak: nat)
    requires l.Valid() && Legal(l, ops)
    requires l.size <= Max(base + CHEAP_PREPEND, 2 * peak + CHEAP_PREPEND - 1)
    requires Shrinks(ops) ==> INITIAL_SIZE <= base
    requires Peak(l, ops) <= peak
    ensures Run(l, ops).size <= Max(base + CHEAP_PREPEND, 2 * peak + CHEAP_PREPEND - 1)
    decreases |ops|
  {
    if ops == [] {
    } else {
      ApplyBound(l, ops[0], base, peak);
      if Shrinks(ops[1..]) {
        var i :| 0 <= i < |ops[1..]| && ops[1..][i].ShrinkOp?;
        assert ops[i + 1].ShrinkOp?;
      }
      RunBound(Apply(l, ops[0]), ops[1..], base, peak);
    }
  }

  /**
   Over every run the array stays within the larger of the initial size plus 8 and twice the peak demand
   plus 7. A run that shrinks passes through a fresh default buffer, so there the initial size counts as
   at least 1024.
   */
  lemma SpaceBound(initialSize: nat, ops: seq<Op>)
    requires Legal(EmptyLayout(initialSize), ops)
    ensures var l := EmptyLayout(initialSize);
            var base := if Shrinks(ops) then Max(initialSize, INITIAL_SIZE) else initialSize;
            Run(l, ops).size <= Max(base + CHEAP_PREPEND, 2 * Peak(l, ops) + CHEAP_PREPEND - 1)
  {
    var l := EmptyLayout(initialSize);
    var base := if Shrinks(ops) then Max(initialSize, INITIAL_SIZE) else initialSize;
    RunBound(l, ops, base, Peak(l, ops));
  }

  // ---------------------------------------------------------------- the buffer

  /** What readv(2) reports: an error, or the prefix of the incoming stream it consumed. */
  datatype ReadResult = ReadError(errno: int) | ReadBytes(bytes: string)

  /** Bytes copied one by one make up the same slice. */
  lemma SameSlice(now: string, was: string, at: nat, from: nat, len: nat)
    requires at + len <= |now| && from + len <= |was|
    requires forall j :: at <= j < at + len ==> now[j] == was[j - at + from]
    ensures now[at..at + len] == was[from..from + len]
  {
    var a, b := now[at..at + len], was[from..from + len];
    forall i | 0 <= i < len
      ensures a[i] == b[i]
    {
      assert now[at + i] == was[at + i - at + from];
    }
  }

  class Buffer {
    var data: array<char>
    var reader: nat
    var writer: nat

    ghost predicate Valid()
      reads this
    {
      reader <= writer <= data.Length && CHEAP_PREPEND <= data.Length
    }

    /** The abstract value: the readable bytes. */
    ghost function Contents(): (s: string)
      reads this, data
      requires Valid()
    {
      data[reader..writer]
    }

    ghost function Zones(): (l: Layout)
      reads this
      requires Valid()
      ensures l.Valid()
    {
      Layout(data.Length, reader, writer)
    }

    constructor (initialSize: nat := INITIAL_SIZE)
      ensures Valid() && fresh(data)
      ensures Contents() == "" && Zones() == EmptyLayout(initialSize)
    {
      data := new char[CHEAP_PREPEND + initialSize](_ => '\0');
      reader, writer := CHEAP_PREPEND, CHEAP_PREPEND;
    }

    function ReadableBytes(): (n: nat)
      reads this, data
      requires Valid()
      ensures n == |Contents()|
    {
      writer - reader
    }

    function WritableBytes(): nat
      reads this
      requires Valid()
    {
      data.Length - writer
    }

    method FindCRLF() returns (r: Option<nat>)
      requires Valid()
      ensures r == FindCrlf(Contents())
    {
      ghost var s := Contents();
      var i := reader;
      while i + 2 <= writer
        invariant reader <= i <= writer
        invariant forall j: nat :: j < i - reader ==> !IsCrlfAt(s, j)
      {
        if data[i] == '\r' && data[i + 1] == '\n' {
          FindCrlfIsFirst(s, i - reader);
          return Some(i - reader);
        }
        assert !IsCrlfAt(s, i - reader);
        i := i + 1;
      }
      FindCrlfMeaning(s);
      r := None;
    }

    method RetrieveAll()
      requires Valid()
      modifies this
      ensures Valid() && data == old(data)
      ensures Contents() == "" && Zones() == RetrieveLayout(old(Zones()), old(Zones()).Readable())
    {
      reader, writer := CHEAP_PREPEND, CHEAP_PREPEND;
    }

    method Retrieve(len: nat)
      requires Valid() && len <= |Contents()|
      modifies this
      ensures Valid() && data == old(data)
      ensures Contents() == old(Contents())[len..]
      ensures Zones() == RetrieveLayout(old(Zones()), len)
    {
      if len < ReadableBytes() {
        reader := reader + len;
      } else {
        RetrieveAll();
      }
    }

    method RetrieveAsString(len: nat) returns (s: string)
      requires Valid() && len <= |Contents()|
      modifies this
      ensures Valid() && data == old(data)
      ensures s + Contents() == old(Contents()) && |s| == len
      ensures Zones() == RetrieveLayout(old(Zones()), len)
    {
      s := data[reader..reader + len];
      Retrieve(len);
    }

    /** vector::resize to a larger size. */
    method Grow(size: nat)
      requires Valid() && data.Length <= size
      modifies this
      ensures Valid() && fresh(data)
      ensures Contents() == old(Contents())
      ensures Zones() == old(Zones()).(size := size)
    {
      var oldData := data;
      data := new char[size](i requires 0 <= i reads oldData =>
        if i < oldData.Length then oldData[i] else '\0');
    }

    /** Moves the readable bytes to the front, in place. */
    method Compact()
      requires Valid() && CHEAP_PREPEND < reader
      modifies this, data
      ensures Valid() && data == old(data)
      ensures Contents() == old(Contents())
      ensures Zones() == Layout(data.Length, CHEAP_PREPEND, CHEAP_PREPEND + old(Zones()).Readable())
    {
      var readable := writer - reader;
      ghost var before := data[..];
      var k := 0;
      while k < readable
        invariant 0 <= k <= readable
        invariant data == old(data) && reader == old(reader) && writer == old(writer)
        invariant forall j :: CHEAP_PREPEND <= j < CHEAP_PREPEND + k ==> data[..][j] == before[j - CHEAP_PREPEND + reader]
        invariant forall j :: reader + k <= j < writer ==> data[j] == before[j]
      {
        data[CHEAP_PREPEND + k] := data[reader + k];
        k := k + 1;
      }
      SameSlice(data[..], before, CHEAP_PREPEND, reader, readable);
      reader := CHEAP_PREPEND;
      writer := reader + readable;
    }

    method MakeSpace(len: nat)
      requires Valid() && data.Length - writer < len
      modifies this, data
      ensures Valid() && (data == old(data) || fresh(data))
      ensures Contents() == old(Contents())
      ensures Zones() == Reserve(old(Zones()), len)
    {
      if WritableBytes() + reader < len + CHEAP_PREPEND {
        Grow(writer + len);
      } else {
        assert CHEAP_PREPEND < reader;
        Compact();
      }
    }

    method EnsureWritableBytes(len: nat)
      requires Valid()
      modifies this, data
      ensures Valid() && (data == old(data) || fresh(data))
      ensures Contents() == old(Contents())
      ensures Zones() == Reserve(old(Zones()), len)
    {
      if WritableBytes() < len {
        MakeSpace(len);
      }
    }

    /** The caller filled the first bytes of the writable zone; they become readable. */
    method HasWritten(len: nat)
      requires Valid() && len <= data.Length - writer
      modifies this
      ensures Valid() && data == old(data)
      ensures Contents() == old(Contents()) + old(data[writer..writer + len])
      ensures Zones() == old(Zones()).(writer := old(writer) + len)
    {
      writer := writer + len;
    }

    /** std::copy into this array, starting at position at. */
    method CopyIn(bytes: string, at: nat)
      requires at + |bytes| <= data.Length
      modifies data
      ensures data[..] == old(data[..at]) + bytes + old(data[at + |bytes|..])
    {
      var k := 0;
      while k < |bytes|
        invariant 0 <= k <= |bytes|
        invariant forall i :: 0 <= i < k ==> data[at + i] == bytes[i]
        invariant forall i :: 0 <= i < data.Length && !(at <= i < at + k) ==> data[i] == old(data[i])
      {
        data[at + k] := bytes[k];
        k := k + 1;
      }
    }

    /** Bytes land in the writable zone and become readable. */
    method FillWritable(bytes: string)
      requires Valid() && |bytes| <= data.Length - writer
      modifies this, data
      ensures Valid() && data == old(data)
      ensures Contents() == old(Contents()) + bytes
      ensures Zones() == old(Zones()).(writer := old(writer) + |bytes|)
    {
      CopyIn(bytes, writer);
      assert data[writer..writer + |bytes|] == bytes;
      assert data[reader..writer] == old(data[reader..writer]);
      HasWritten(|bytes|);
    }

    method Append(bytes: string)
      requires Valid()
      modifies this, data
      ensures Valid() && (data == old(data) || fresh(data))
      ensures Contents() == old(Contents()) + bytes
      ensures Zones() == AppendLayout(old(Zones()), |bytes|)
    {
      EnsureWritableBytes(|bytes|);
      FillWritable(bytes);
    }

    method Unwrite(len: nat)
      requires Valid() && len <= |Contents()|
      modifies this
      ensures Valid() && data == old(data)
      ensures Contents() == old(Contents())[..|old(Contents())| - len]
      ensures Zones() == old(Zones()).(writer := old(writer) - len)
    {
      writer := writer - len;
    }

    method Prepend(bytes: string)
      requires Valid() && |bytes| <= reader
      modifies this, data
      ensures Valid() && data == old(data)
      ensures Contents() == bytes + old(Contents())
      ensures Zones() == old(Zones()).(reader := old(reader) - |bytes|)
    {
      reader := reader - |bytes|;
      CopyIn(bytes, reader);
      assert data[reader..reader + |bytes|] == bytes;
      assert data[reader + |bytes|..writer] == old(data[reader..writer]);
    }

    method Shrink(reserve: nat)
      requires Valid()
      modifies this, data
      ensures Valid() && fresh(data)
      ensures Contents() == old(Contents())
      ensures Zones() == ShrinkLayout(old(Zones()), reserve)
    {
      var other := new Buffer(INITIAL_SIZE);
      other.EnsureWritableBytes(ReadableBytes() + reserve);
      other.Append(data[reader..writer]);
      data, reader, writer := other.data, other.reader, other.writer;
    }

    /** How much one readv may deliver: the second vector is used only while the first is short. */
    function ReadCapacity(): nat
      reads this
      requires Valid()
    {
      WritableBytes() + if WritableBytes() < EXTRA_SIZE then EXTRA_SIZE else 0
    }

    method ReadFd(result: ReadResult) returns (n: int)
      requires Valid()
      requires result.ReadBytes? ==> |result.bytes| <= ReadCapacity()
      modifies this, data
      ensures Valid() && (data == old(data) || fresh(data))
      ensures result.ReadError? ==> n == -1 && Contents() == old(Contents()) && Zones() == old(Zones())
      ensures result.ReadBytes? ==>
                && n == |result.bytes|
                && Contents() == old(Contents()) + result.bytes
                && Zones() == ReadFdLayout(old(Zones()), |result.bytes|)
    {
      if result.ReadError? {
        return -1;
      }
      n := |result.bytes|;
      var writable := WritableBytes();
      if n <= writable {
        FillWritable(result.bytes);
      } else {
        // the kernel filled the first vector, and put the rest in the second one
        ConcatSplit(Contents(), result.bytes, writable);
        FillWritable(result.bytes[..writable]);
        Append(result.bytes[writable..]);
      }
    }
  }
}
