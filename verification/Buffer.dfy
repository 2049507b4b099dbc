/** net/Buffer: a sliding window of live bytes over a growable block of memory.
    The block is a `std::vector<char>`: `store` is its memory (Length is the
    capacity) and `size` its size; the two differ when the allocator hands out
    more than was asked for. */
module Buffers {
  import opened Text

  const DEFAULT_INIT_SIZE: nat := 1024
  const EXTRA_SIZE: nat := 65536

  /** One more than the largest `int`. */
  const INT_LIMIT: nat := 0x8000_0000

  // ------------------------------------------------------------ specification

  /** Everything about a buffer that a caller can observe, now or later. */
  datatype BufferView = BufferView(live: string, readIndex: nat, size: nat, capacity: nat) {
    function WriteIndex(): nat { readIndex + |live| }

    predicate Legal() { WriteIndex() <= capacity && size <= capacity }

    function Writable(): int { capacity - WriteIndex() }

    /** The vector's size and capacity agree. */
    predicate Tight() { Legal() && size == capacity }
  }

  function Min(a: int, b: int): int { if a <= b then a else b }
  function Max(a: int, b: int): int { if a <= b then b else a }

  /** A `size_t` passed as an `int`. */
  function Narrow(n: nat): (len: int)
    ensures len <= n && (len == n <==> n < INT_LIMIT)
  {
    var low := n % 0x1_0000_0000;
    if low < INT_LIMIT then low else low - 0x1_0000_0000
  }

  /** It is the one `int` that agrees modulo 2^32. */
  lemma NarrowWraps(n: nat)
    ensures -0x8000_0000 <= Narrow(n) < 0x8000_0000 && (n - Narrow(n)) % 0x1_0000_0000 == 0
  {
  }

  function Zeros(n: nat): string { seq(n, _ => '\0') }

  /** Room for `len` more bytes can only come from a new block. */
  predicate MustGrow(v: BufferView, len: nat) {
    len > v.Writable() && len - v.Writable() >= v.readIndex
  }

  /** A reallocation carries over the first `size` cells and zeroes the rest. */
  function Survivors(v: BufferView): (r: string)
    ensures |r| == |v.live|
  {
    var keep := Max(0, Min(v.size - v.readIndex, |v.live|));
    v.live[..keep] + Zeros(|v.live| - keep)
  }

  /** `ensureWritebale`; `spare` is what the allocator adds beyond the request. */
  function EnsureView(v: BufferView, len: nat, spare: nat): BufferView {
    if len <= v.Writable() then v
    else if !MustGrow(v, len) then v.(readIndex := 0)
    else BufferView(Survivors(v), v.readIndex, v.WriteIndex() + len, v.WriteIndex() + len + spare)
  }

  function AppendView(v: BufferView, data: string, spare: nat): BufferView {
    var e := EnsureView(v, |data|, spare);
    e.(live := e.live + data)
  }

  function RetrieveView(v: BufferView, n: nat): BufferView {
    if n >= |v.live| then v.(live := [], readIndex := 0)
    else v.(live := v.live[n..], readIndex := v.readIndex + n)
  }

  /** `readFd` when the kernel delivers `data` over the two segments. */
  function ReadView(v: BufferView, data: string, spare: nat): BufferView
    requires v.Legal() && (|data| <= v.Writable() || v.readIndex <= v.size)
  {
    if |data| <= v.Writable() then v.(live := v.live + data)
    else
      var filled := v.live + data[..v.Writable()];
      AppendView(v.(live := filled[..v.size - v.readIndex]), data[v.Writable()..], spare)
  }

  // ---------------------------------------------------- when bytes are kept

  /** Whatever the bytes are, `append` is a queue append exactly when it does not
      reallocate while live bytes lie beyond the vector's size. */
  lemma AppendKeepsBytes(v: BufferView, data: string, spare: nat)
    requires v.Legal()
    ensures (forall bytes: string | |bytes| == |v.live| ::
              AppendView(v.(live := bytes), data, spare).live == bytes + data)
            <==> (!MustGrow(v, |data|) || v.WriteIndex() <= v.size || v.live == [])
  {
    var safe := !MustGrow(v, |data|) || v.WriteIndex() <= v.size || v.live == [];
    if safe {
      forall bytes: string | |bytes| == |v.live|
        ensures AppendView(v.(live := bytes), data, spare).live == bytes + data
      {
        assert MustGrow(v.(live := bytes), |data|) <==> MustGrow(v, |data|);
        if MustGrow(v, |data|) { assert Survivors(v.(live := bytes)) == bytes; }
      }
    } else {
      var bytes := seq(|v.live|, _ => 'x');
      var w := v.(live := bytes);
      assert MustGrow(w, |data|);
      var last := |bytes| - 1;
      assert Survivors(w)[last] == '\0';
      assert AppendView(w, data, spare).live[last] == '\0' != (bytes + data)[last];
    }
  }

  /** `readFd` is a queue append exactly when the data fits the first segment or
      the vector's size equals its capacity. */
  lemma ReadKeepsBytes(v: BufferView, data: string, spare: nat)
    requires v.Legal() && v.readIndex <= v.size
    ensures ReadView(v, data, spare).live == v.live + data
            <==> |data| <= v.Writable() || v.size == v.capacity
  {
    if |data| > v.Writable() {
      var filled := v.live + data[..v.Writable()];
      var kept := v.(live := filled[..v.size - v.readIndex]);
      assert Survivors(kept) == kept.live;
      assert |ReadView(v, data, spare).live| == |v.live| + |data| - (v.capacity - v.size);
      if v.size == v.capacity {
        assert kept.live == filled;
        assert filled + data[v.Writable()..] == v.live + data;
      }
    }
  }

  // ------------------------------------------------------------- whole runs

  datatype Op = Append(data: string, spare: nat) | Retrieve(n: nat) | ReadFd(data: string, spare: nat)

  function Incoming(op: Op): nat {
    match op
    case Append(data, _) => |data|
    case Retrieve(_) => 0
    case ReadFd(data, _) => |data|
  }

  /** No byte is lost in this step: see `AppendKeepsBytes` and `ReadKeepsBytes`. */
  predicate Safe(v: BufferView, op: Op)
    requires v.Legal()
  {
    match op
    case Append(data, _) => !MustGrow(v, |data|) || v.WriteIndex() <= v.size || v.live == []
    case Retrieve(_) => true
    case ReadFd(data, _) => |data| <= v.Writable() || v.size == v.capacity
  }

  function Apply(v: BufferView, op: Op): BufferView
    requires v.Legal() && Safe(v, op)
  {
    match op
    case Append(data, spare) => AppendView(v, data, spare)
    case Retrieve(n) => RetrieveView(v, n)
    case ReadFd(data, spare) => ReadView(v, data, spare)
  }

  /** The byte queue the buffer is meant to be. */
  function Queue(q: string, op: Op): string {
    match op
    case Append(data, _) => q + data
    case Retrieve(n) => q[Min(n, |q|)..]
    case ReadFd(data, _) => q + data
  }

  lemma StepIsQueue(v: BufferView, op: Op)
    requires v.Legal() && Safe(v, op)
    ensures Apply(v, op).Legal() && Apply(v, op).live == Queue(v.live, op)
  {
    match op
    case Append(data, spare) => if MustGrow(v, |data|) { assert Survivors(v) == v.live; }
    case Retrieve(n) =>
    case ReadFd(data, spare) => ReadIsQueue(v, data, spare);
  }

  lemma ReadIsQueue(v: BufferView, data: string, spare: nat)
    requires v.Legal() && (|data| <= v.Writable() || v.size == v.capacity)
    ensures ReadView(v, data, spare).Legal() && ReadView(v, data, spare).live == v.live + data
  {
    if |data| > v.Writable() { ReadKeepsBytes(v, data, spare); }
  }

  /** No step of the run reallocates while live bytes lie beyond the vector's size. */
  predicate SafeRun(v: BufferView, ops: seq<Op>)
    requires v.Legal()
    decreases |ops|
  {
    if ops == [] then true
    else Safe(v, ops[0]) && (StepIsQueue(v, ops[0]); SafeRun(Apply(v, ops[0]), ops[1..]))
  }

  function Run(v: BufferView, ops: seq<Op>): BufferView
    requires v.Legal() && SafeRun(v, ops)
    decreases |ops|
  {
    if ops == [] then v
    else
      StepIsQueue(v, ops[0]);
      Run(Apply(v, ops[0]), ops[1..])
  }

  function QueueRun(q: string, ops: seq<Op>): string
    decreases |ops|
  {
    if ops == [] then q else QueueRun(Queue(q, ops[0]), ops[1..])
  }

  /** Over any run whose reallocations are safe, whatever the allocator adds, the
      readable bytes behave as a FIFO, through compaction and growth. */
  lemma {:induction false} BufferIsQueue(v: BufferView, ops: seq<Op>)
    requires v.Legal() && SafeRun(v, ops)
    ensures Run(v, ops).live == QueueRun(v.live, ops)
    decreases |ops|
  {
    if ops != [] {
      StepIsQueue(v, ops[0]);
      BufferIsQueue(Apply(v, ops[0]), ops[1..]);
    }
  }

  /** The allocator gives exactly what is asked for. */
  predicate ExactAllocator(ops: seq<Op>) {
    forall i | 0 <= i < |ops| :: Exactly(ops[i])
  }

  predicate Exactly(op: Op) { op.Retrieve? || op.spare == 0 }

  /** The most live plus incoming bytes any operation of the run sees. */
  function Peak(q: string, ops: seq<Op>): nat
    decreases |ops|
  {
    if ops == [] then 0 else Max(|q| + Incoming(ops[0]), Peak(Queue(q, ops[0]), ops[1..]))
  }

  lemma ExactStep(v: BufferView, op: Op)
    requires v.Tight() && Exactly(op)
    ensures Safe(v, op)
    ensures var v' := Apply(v, op);
            && v'.Tight()
            && v'.capacity <= Max(v.capacity, 2 * (|v.live| + Incoming(op)))
            && (v'.capacity > v.capacity ==> |v.live| + Incoming(op) >= v.capacity)
  {
  }

  /** With such an allocator every run is safe, and the block never exceeds the
      larger of its first size and twice the peak demand. */
  lemma {:induction false} BufferSpaceBound(v: BufferView, ops: seq<Op>)
    requires v.Tight() && ExactAllocator(ops)
    ensures SafeRun(v, ops)
    ensures Run(v, ops).capacity <= Max(v.capacity, 2 * Peak(v.live, ops))
    decreases |ops|
  {
    if ops != [] {
      assert Exactly(ops[0]);
      ExactStep(v, ops[0]);
      StepIsQueue(v, ops[0]);
      forall i | 0 <= i < |ops[1..]| ensures Exactly(ops[1..][i]) { assert ops[1..][i] == ops[i + 1]; }
      BufferSpaceBound(Apply(v, ops[0]), ops[1..]);
    }
  }

  /** With an allocator that doubles the block, four appends lose bytes: the
      second leaves room the vector's size does not cover, the third fills it,
      and the reallocation of the fourth drops what the third wrote. */
  lemma DoublingLosesBytes(a: string, b: string, c: string, d: string)
    requires |a| == 1024 && |b| == 10 && |c| == 500 && |d| == 600
    requires forall i | 0 <= i < |c| :: c[i] != '\0'
    ensures var v := BufferView([], 0, DEFAULT_INIT_SIZE, DEFAULT_INIT_SIZE);
            var v4 := AppendView(AppendView(AppendView(AppendView(v, a, 0), b, 1014), c, 0), d, 0);
            v4.live != a + b + c + d
  {
    var v := BufferView([], 0, DEFAULT_INIT_SIZE, DEFAULT_INIT_SIZE);
    var v1 := AppendView(v, a, 0);
    assert v1 == BufferView(a, 0, 1024, 1024);
    var v2 := AppendView(v1, b, 1014);
    assert Survivors(v1) == a;
    assert v2 == BufferView(a + b, 0, 1034, 2048);
    var v3 := AppendView(v2, c, 0);
    assert v3 == BufferView(a + b + c, 0, 1034, 2048);
    var v4 := AppendView(v3, d, 0);
    assert MustGrow(v3, |d|);
    assert Survivors(v3)[1034] == '\0';
    assert v4.live[1034] == '\0' != c[0] == (a + b + c + d)[1034];
  }

  // -------------------------------------------------------- strings of any size

  /** `append(const std::string &)`, which takes the size as an `int`, under an
      allocator that adds nothing. `None` is undefined behaviour: a negative length
      or an index past the largest `int`. */
  function StringView(v: BufferView, str: string): Option<BufferView> {
    var len := Narrow(|str|);
    if len < 0 || (MustGrow(v, len) && v.WriteIndex() + len >= INT_LIMIT) then None
    else Some(AppendView(v, str[..len], 0))
  }

  /** One string after the other. */
  function PutAll(v: BufferView, pieces: seq<string>): Option<BufferView>
    decreases |pieces|
  {
    if pieces == [] then Some(v)
    else
      match StringView(v, pieces[0])
      case None => None
      case Some(w) => PutAll(w, pieces[1..])
  }

  function Concat(pieces: seq<string>): string {
    if pieces == [] then "" else pieces[0] + Concat(pieces[1..])
  }

  /** A buffer that has only been appended to, with indices in range. */
  predicate Printable(v: BufferView) {
    v.Tight() && v.readIndex == 0 && v.capacity < INT_LIMIT
  }

  lemma StringFits(v: BufferView, str: string)
    requires Printable(v)
    ensures StringView(v, str).Some? ==> Printable(StringView(v, str).value)
    ensures |v.live| + |str| < INT_LIMIT ==> StringView(v, str).Some? && StringView(v, str).value.live == v.live + str
  {
    if StringView(v, str).Some? {
      var data := str[..Narrow(|str|)];
      ExactStep(v, Op.Append(data, 0));
      StepIsQueue(v, Op.Append(data, 0));
      assert |str| < INT_LIMIT ==> data == str;
    }
  }

  lemma {:induction false} PutStaysPrintable(v: BufferView, pieces: seq<string>)
    requires Printable(v)
    ensures PutAll(v, pieces).Some? ==> Printable(PutAll(v, pieces).value)
    decreases |pieces|
  {
    if pieces != [] {
      StringFits(v, pieces[0]);
      if StringView(v, pieces[0]).Some? { PutStaysPrintable(StringView(v, pieces[0]).value, pieces[1..]); }
    }
  }

  lemma {:induction false} PutFits(v: BufferView, pieces: seq<string>)
    requires Printable(v) && |v.live| + |Concat(pieces)| < INT_LIMIT
    ensures PutAll(v, pieces).Some? && PutAll(v, pieces).value.live == v.live + Concat(pieces)
    decreases |pieces|
  {
    if pieces == [] {
      assert v.live + "" == v.live;
    } else {
      StringFits(v, pieces[0]);
      PutFits(StringView(v, pieces[0]).value, pieces[1..]);
      assert v.live + pieces[0] + Concat(pieces[1..]) == v.live + Concat(pieces);
    }
  }

  /** Strings arrive whole exactly when all of it together has a size that an `int`
      can hold. */
  lemma PutExact(v: BufferView, pieces: seq<string>)
    requires Printable(v)
    ensures (PutAll(v, pieces).Some? && PutAll(v, pieces).value.live == v.live + Concat(pieces))
            <==> |v.live| + |Concat(pieces)| < INT_LIMIT
  {
    PutStaysPrintable(v, pieces);
    if |v.live| + |Concat(pieces)| < INT_LIMIT { PutFits(v, pieces); }
  }

  lemma {:induction false} PutSplits(v: BufferView, a: seq<string>, b: seq<string>)
    ensures PutAll(v, a + b) == match PutAll(v, a) case None => None case Some(w) => PutAll(w, b)
    ensures Concat(a + b) == Concat(a) + Concat(b)
    decreases |a|
  {
    if a == [] {
      assert a + b == b;
    } else {
      assert (a + b)[1..] == a[1..] + b;
      assert a[0] + (Concat(a[1..]) + Concat(b)) == a[0] + Concat(a[1..]) + Concat(b);
      match StringView(v, a[0])
      case None => PutSplits(v, a[1..], b);
      case Some(w) => PutSplits(w, a[1..], b);
    }
  }

  // ----------------------------------------------------------- implementation

  class Buffer {
    var store: array<char>
    var size: nat
    var readIndex: nat
    var writeIndex: nat

    ghost predicate Valid()
      reads this
    {
      readIndex <= writeIndex <= store.Length && size <= store.Length
    }

    /** No spare cells: the vector's size is its capacity. */
    ghost predicate Exact()
      reads this
    {
      Valid() && size == store.Length
    }

    ghost function Contents(): string
      reads this, store
      requires Valid()
    {
      store[readIndex..writeIndex]
    }

    ghost function View(): (v: BufferView)
      reads this, store
      requires Valid()
      ensures v.Legal() && v.WriteIndex() == writeIndex
    {
      BufferView(Contents(), readIndex, size, store.Length)
    }

    constructor (initSize: int := DEFAULT_INIT_SIZE)
      ensures Valid() && fresh(store)
      ensures var n := Max(initSize, DEFAULT_INIT_SIZE); View() == BufferView([], 0, n, n)
    {
      var n := if initSize < DEFAULT_INIT_SIZE then DEFAULT_INIT_SIZE else initSize;
      store := new char[n](_ => '\0');
      size, readIndex, writeIndex := n, 0, 0;
    }

    method ReadableBytes() returns (n: nat)
      requires Valid()
      ensures n == |Contents()|
    {
      n := writeIndex - readIndex;
    }

    /** `std::vector::resize` beyond the capacity. */
    method Resize(n: nat, spare: nat)
      requires Valid() && n >= store.Length
      modifies this
      ensures Valid() && fresh(store) && store.Length == n + spare && size == n
      ensures readIndex == old(readIndex) && writeIndex == old(writeIndex)
      ensures Contents() == Survivors(old(View()))
    {
      var block := new char[n + spare](_ => '\0');
      var i := 0;
      while i < size
        invariant 0 <= i <= size && unchanged(this) && unchanged(store)
        invariant forall k :: 0 <= k < i ==> block[k] == store[k]
        invariant forall k :: i <= k < block.Length ==> block[k] == '\0'
      {
        block[i] := store[i];
        i := i + 1;
      }
      store := block;
      size := n;
      ghost var was := old(View());
      forall k | 0 <= k < |was.live| ensures Contents()[k] == Survivors(was)[k] {
        assert Contents()[k] == block[readIndex + k];
        assert was.live[k] == old(store[readIndex + k]);
      }
    }

    /** `std::copy` of the live bytes onto the front of the same block. */
    method Compact()
      requires Valid()
      modifies this, store
      ensures Valid() && store == old(store) && size == old(size) && readIndex == 0
      ensures Contents() == old(Contents())
    {
      var n := writeIndex - readIndex;
      var i := 0;
      while i < n
        invariant 0 <= i <= n && unchanged(this)
        invariant forall k :: 0 <= k < i ==> store[k] == old(store[readIndex + k])
        invariant forall k :: readIndex + i <= k < store.Length ==> store[k] == old(store[k])
      {
        store[i] := store[readIndex + i];
        i := i + 1;
      }
      writeIndex := n;
      readIndex := 0;
      assert Contents() == old(Contents());
    }

    method EnsureWritable(len: nat, spare: nat)
      requires Valid()
      modifies this, store
      ensures Valid() && (store == old(store) || fresh(store))
      ensures View() == EnsureView(old(View()), len, spare)
      ensures len <= store.Length - writeIndex
    {
      var writable := store.Length - writeIndex;
      if len > writable {
        if len - writable < readIndex {
          Compact();
        } else {
          Resize(writeIndex + len, spare);
        }
      }
    }

    /** `std::copy` of `data` into the free cells; the indices stay. */
    method CopyIn(data: string)
      requires Valid() && writeIndex + |data| <= store.Length
      modifies store
      ensures Contents() == old(Contents())
      ensures store[readIndex..writeIndex + |data|] == old(Contents()) + data
    {
      var i := 0;
      while i < |data|
        invariant 0 <= i <= |data|
        invariant store[..writeIndex + i] == old(store[..writeIndex]) + data[..i]
      {
        store[writeIndex + i] := data[i];
        i := i + 1;
        assert data[..i] == data[..i - 1] + [data[i - 1]];
      }
      assert data[..i] == data;
      assert store[readIndex..writeIndex + |data|] == store[..writeIndex + |data|][readIndex..];
    }

    method Append(data: string, spare: nat)
      requires Valid()
      modifies this, store
      ensures Valid() && (store == old(store) || fresh(store))
      ensures View() == AppendView(old(View()), data, spare)
    {
      EnsureWritable(|data|, spare);
      if store.Length - writeIndex >= |data| {
        CopyIn(data);
        writeIndex := writeIndex + |data|;
      }
    }

    /** `append(const char *, int)`, under an allocator that adds nothing. */
    method AppendExact(data: string)
      requires Exact()
      modifies this, store
      ensures Exact() && (store == old(store) || fresh(store))
      ensures View() == AppendView(old(View()), data, 0) && Contents() == old(Contents()) + data
    {
      ExactStep(View(), Op.Append(data, 0));
      StepIsQueue(View(), Op.Append(data, 0));
      Append(data, 0);
    }

    /** `append(const std::string &)`; false stands for undefined behaviour. */
    method AppendString(str: string) returns (ok: bool)
      requires Exact()
      modifies this, store
      ensures Exact() && (store == old(store) || fresh(store))
      ensures StringView(old(View()), str) == if ok then Some(View()) else None
    {
      var len := Narrow(|str|);
      var writable := store.Length - writeIndex;
      ok := 0 <= len && (len > writable && len - writable >= readIndex ==> writeIndex + len < INT_LIMIT);
      if ok {
        AppendExact(str[..len]);
      }
    }

    method Retrieve(n: nat) returns (taken: nat)
      requires Valid()
      modifies this
      ensures Valid() && store == old(store)
      ensures View() == RetrieveView(old(View()), n) && taken == Min(n, |old(Contents())|)
    {
      if n >= writeIndex - readIndex {
        taken := writeIndex - readIndex;
        writeIndex, readIndex := 0, 0;
      } else {
        taken := n;
        readIndex := readIndex + n;
      }
    }

    /** `end` is an index into the block, as the pointer of the original is. */
    method RetrieveUntil(end: nat) returns (taken: nat)
      requires Valid() && readIndex <= end <= writeIndex
      modifies this
      ensures Valid() && store == old(store)
      ensures View() == RetrieveView(old(View()), end - old(readIndex))
      ensures Contents() == old(Contents())[end - old(readIndex)..]
    {
      taken := Retrieve(end - readIndex);
    }

    /** `readv` fills the free cells first and `extrabuf` after them; an error
        (`None`) leaves the buffer as it is. */
    method ReadFd(arrived: Option<string>, spare: nat) returns (n: int)
      requires Valid() && readIndex <= size
      requires arrived.Some? ==> |arrived.value| <= View().Writable() + EXTRA_SIZE
      modifies this, store
      ensures Valid() && (store == old(store) || fresh(store))
      ensures n == if arrived.None? then -1 else |arrived.value|
      ensures View() == if arrived.None? then old(View()) else ReadView(old(View()), arrived.value, spare)
    {
      if arrived.None? { return -1; }
      var data := arrived.value;
      var writable := store.Length - writeIndex;
      n := |data|;
      if n <= writable {
        CopyIn(data);
        writeIndex := writeIndex + n;
      } else {
        FillUp(data[..writable]);
        Append(data[writable..], spare);
      }
    }

    /** The first segment takes every free cell; then `writeIndex_ = buffer_.size()`. */
    method FillUp(data: string)
      requires Valid() && writeIndex + |data| == store.Length && readIndex <= size
      modifies this, store
      ensures Valid() && store == old(store) && size == old(size) && readIndex == old(readIndex)
      ensures View() == old(View()).(live := (old(Contents()) + data)[..size - readIndex])
    {
      CopyIn(data);
      writeIndex := size;
      assert Contents() == store[readIndex..store.Length][..size - readIndex];
    }

    /** The first CRLF at or after the block index `start`. */
    method FindCrlf(start: nat) returns (at: Option<nat>)
      requires Valid() && readIndex <= start <= writeIndex
      ensures at == match Text.FindCrlf(store[start..writeIndex])
                    case None => None
                    case Some(i) => Some(start + i)
    {
      ghost var s := store[start..writeIndex];
      var i := start;
      while i + 1 < writeIndex
        invariant start <= i <= writeIndex
        invariant forall j :: 0 <= j < i - start ==> !CrlfAt(s, j)
      {
        assert s[i - start] == store[i] && s[i - start + 1] == store[i + 1];
        if store[i] == '\r' && store[i + 1] == '\n' {
          FirstCrlf(s, i - start);
          return Some(i);
        }
        assert !CrlfAt(s, i - start);
        i := i + 1;
      }
      at := None;
    }
  }
}
