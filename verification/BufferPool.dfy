/** BufferProvider: a bounded pool of buffers leased through locks. A lock marks its buffer
    busy while it lives; when it goes, the buffer is idle and empty again. */
module BufferPool {
  import opened Wire

  class Buffer {
    var data: seq<Byte>
    var size: nat
    var busy: bool

    /** The size reported never exceeds the bytes that exist. */
    predicate Sized()
      reads this
    {
      size <= |data|
    }

    function Content(): (bytes: seq<Byte>)
      reads this
      requires Sized()
      ensures |bytes| == size
    {
      data[..size]
    }

    constructor (n: nat)
      ensures Sized() && size == n && !busy && data == seq(n, _ => 0)
    {
      data, size, busy := seq(n, _ => 0), n, false;
    }

    /** Growing keeps all bytes, also those beyond the old size, and adds zeros. */
    method Resize(n: nat)
      modifies this
      ensures Sized() && size == n == |data| && busy == old(busy)
      ensures forall i :: 0 <= i < n ==> data[i] == if i < |old(data)| then old(data)[i] else 0
    {
      size := n;
      data := if n <= |data| then data[..n] else data + seq(n - |data|, _ => 0);
    }

    method Reset()
      modifies this`size
      ensures Sized() && size == 0
    {
      size := 0;
    }

    method Take()
      modifies this`busy
      ensures busy
    {
      busy := true;
    }

    method Free()
      modifies this`busy
      ensures !busy
    {
      busy := false;
    }
  }

  class BufferLock {
    const buffer: Buffer?

    constructor (buffer: Buffer?)
      modifies if buffer == null then {} else {buffer}
      ensures this.buffer == buffer
      ensures buffer != null ==> buffer.busy && buffer.size == old(buffer.size) && buffer.data == old(buffer.data)
    {
      this.buffer := buffer;
      if buffer != null {
        buffer.Take();
      }
    }

    /** The destructor: the buffer, if any, is idle and empty again; its bytes stay. */
    method Release()
      modifies if buffer == null then {} else {buffer}
      ensures buffer != null ==> !buffer.busy && buffer.size == 0 && buffer.data == old(buffer.data)
    {
      if buffer != null {
        buffer.Free();
        buffer.Reset();
      }
    }

    method Size() returns (n: nat)
      ensures n == if buffer == null then 0 else buffer.size
    {
      n := if buffer == null then 0 else buffer.size;
    }

    method Resize(n: nat)
      modifies if buffer == null then {} else {buffer}
      ensures buffer != null ==> buffer.Sized() && buffer.size == n == |buffer.data| && buffer.busy == old(buffer.busy)
      ensures buffer != null ==> forall i :: 0 <= i < n ==>
        buffer.data[i] == if i < |old(buffer.data)| then old(buffer.data)[i] else 0
    {
      if buffer != null {
        buffer.Resize(n);
      }
    }
  }

  /** The buffers that are busy, in order. */
  ghost function Busy(buffers: seq<Buffer>): seq<Buffer>
    reads buffers
  {
    if buffers == [] then []
    else Busy(buffers[..|buffers| - 1])
         + (if buffers[|buffers| - 1].busy then [buffers[|buffers| - 1]] else [])
  }

  class BufferProvider {
    const maxBufferSize: nat
    const maxBuffersCount: nat
    var buffers: seq<Buffer>

    ghost var locks: set<BufferLock>   // the locks that are alive

    /** No two live locks share a buffer, a buffer is busy exactly while it is leased, idle
        buffers are empty, and the pool stays within its bound. */
    ghost predicate Valid()
      reads this, buffers, locks
    {
      && |buffers| <= maxBuffersCount
      && (forall i, j :: 0 <= i < j < |buffers| ==> buffers[i] != buffers[j])
      && (forall l :: l in locks ==> l.buffer != null && l.buffer in buffers)
      && (forall l, m :: l in locks && m in locks && l.buffer == m.buffer ==> l == m)
      && (forall b :: b in buffers ==> b.Sized())
      && (forall b :: b in buffers ==> (b.busy <==> exists l :: l in locks && l.buffer == b))
      && (forall b :: b in buffers && !b.busy ==> b.size == 0)
    }

    constructor (maxBufferSize: nat, maxBuffersCount: nat)
      ensures Valid() && buffers == [] && locks == {}
      ensures this.maxBufferSize == maxBufferSize && this.maxBuffersCount == maxBuffersCount
    {
      this.maxBufferSize, this.maxBuffersCount := maxBufferSize, maxBuffersCount;
      buffers, locks := [], {};
    }

    /** The index of the first idle buffer, or the number of buffers. */
    method FindIdle() returns (k: nat)
      ensures k <= |buffers|
      ensures forall i :: 0 <= i < k ==> buffers[i].busy
      ensures k < |buffers| ==> !buffers[k].busy
    {
      k := 0;
      while k < |buffers| && buffers[k].busy
        invariant k <= |buffers|
        invariant forall i :: 0 <= i < k ==> buffers[i].busy
      {
        k := k + 1;
      }
    }

    method Lease(k: nat) returns (lock: BufferLock)
      requires Valid() && k < |buffers| && !buffers[k].busy
      modifies this`locks, buffers[k]
      ensures Valid() && fresh(lock) && lock.buffer == buffers[k] && locks == old(locks) + {lock}
      ensures buffers[k].size == 0
    {
      assert buffers[k] in buffers;
      lock := new BufferLock(buffers[k]);
      locks := locks + {lock};
    }

    method LeaseNew() returns (lock: BufferLock)
      requires Valid() && |buffers| < maxBuffersCount
      modifies this
      ensures Valid() && fresh(lock) && locks == old(locks) + {lock}
      ensures lock.buffer != null && fresh(lock.buffer) && lock.buffer.size == maxBufferSize
      ensures buffers == old(buffers) + [lock.buffer]
    {
      var buffer := new Buffer(maxBufferSize);
      buffers := buffers + [buffer];
      lock := new BufferLock(buffer);
      locks := locks + {lock};
    }

    /** Leases the first idle buffer, or a new one while there is room. It fails exactly if the
        pool is full and every buffer is leased. A buffer used before comes back empty,
        a new one at full size. */
    method Get() returns (lock: BufferLock?)
      requires Valid()
      modifies this, buffers
      ensures Valid()
      ensures lock == null <==> |old(buffers)| >= maxBuffersCount && forall b :: b in old(buffers) ==> old(b.busy)
      ensures lock == null ==> buffers == old(buffers) && locks == old(locks)
      ensures lock != null ==> fresh(lock) && locks == old(locks) + {lock} && lock.buffer != null
      ensures lock != null && lock.buffer in old(buffers) ==>
        buffers == old(buffers) && lock.buffer.size == 0
        && exists k :: 0 <= k < |old(buffers)| && old(buffers)[k] == lock.buffer && !old(buffers[k].busy)
             && forall i :: 0 <= i < k ==> old(buffers[i].busy)
      ensures lock != null && lock.buffer !in old(buffers) ==>
        buffers == old(buffers) + [lock.buffer] && fresh(lock.buffer) && lock.buffer.size == maxBufferSize
        && forall b :: b in old(buffers) ==> old(b.busy)
      ensures forall b :: b in old(buffers) && (lock == null || b != lock.buffer) ==>
        b.busy == old(b.busy) && b.size == old(b.size) && b.data == old(b.data)
    {
      lock := null;
      var k := FindIdle();
      if k == |buffers| {
        if |buffers| < maxBuffersCount {
          lock := LeaseNew();
        }
      } else {
        lock := Lease(k);
      }
    }

    /** Drops exactly the idle buffers and keeps the order of the others. */
    method Reset()
      requires Valid()
      modifies this`buffers
      ensures Valid() && locks == old(locks)
      ensures buffers == Busy(old(buffers))
      ensures forall b :: b in buffers <==> b in old(buffers) && b.busy
      ensures forall i, j :: 0 <= i < j < |old(buffers)| && old(buffers)[i].busy && old(buffers)[j].busy ==>
        exists k, l :: 0 <= k < l < |buffers| && buffers[k] == old(buffers)[i] && buffers[l] == old(buffers)[j]
    {
      ghost var before := buffers;
      var kept: seq<Buffer> := [];
      for i := 0 to |buffers|
        invariant kept == Busy(before[..i])
      {
        assert before[..i + 1][..i] == before[..i];
        if buffers[i].busy {
          kept := kept + [buffers[i]];
        }
      }
      assert before[..|before|] == before;
      BusyMembers(before);
      forall i, j | 0 <= i < j < |before| && before[i].busy && before[j].busy
        ensures exists k, l :: 0 <= k < l < |kept| && kept[k] == before[i] && kept[l] == before[j]
      {
        BusyKeepsOrder(before, i, j);
      }
      buffers := kept;
    }

    /** A lock of the pool goes: its buffer is idle and empty, all others are untouched. */
    method TakeBack(lock: BufferLock)
      requires Valid() && lock in locks
      modifies this`locks, lock.buffer
      ensures Valid() && locks == old(locks) - {lock}
      ensures lock.buffer != null && !lock.buffer.busy && lock.buffer.size == 0
    {
      lock.Release();
      locks := locks - {lock};
    }

    /** A lock of the pool resizes its own buffer and no other. */
    method ResizeLeased(lock: BufferLock, n: nat)
      requires Valid() && lock in locks
      modifies lock.buffer
      ensures Valid() && lock.buffer != null && lock.buffer.size == n
    {
      lock.Resize(n);
    }

    /** At most as many locks are alive as the pool may hold buffers. */
    lemma LiveLocksBounded()
      requires Valid()
      ensures |locks| <= |buffers| <= maxBuffersCount
    {
      var leased := set l | l in locks :: l.buffer;
      SameCount(locks, leased);
      var all := set b: Buffer? | b in buffers;
      assert leased <= all;
      SubsetCount(leased, all);
      SeqCount(buffers, all);
    }
  }

  /** reset treats each part of the pool by itself, so the buffers that stay keep their order. */
  lemma {:induction false} BusyConcat(a: seq<Buffer>, b: seq<Buffer>)
    ensures Busy(a + b) == Busy(a) + Busy(b)
    decreases |b|
  {
    if b == [] {
      assert a + b == a;
    } else {
      var front, last := b[..|b| - 1], b[|b| - 1];
      assert (a + b)[..|a + b| - 1] == a + front && (a + b)[|a + b| - 1] == last;
      BusyConcat(a, front);
    }
  }

  /** Any two buffers that stay are in the order in which they were. */
  lemma {:induction false} BusyKeepsOrder(buffers: seq<Buffer>, i: nat, j: nat)
    requires i < j < |buffers| && buffers[i].busy && buffers[j].busy
    ensures var r := Busy(buffers);
      exists k, l :: 0 <= k < l < |r| && r[k] == buffers[i] && r[l] == buffers[j]
  {
    var front, back := buffers[..j], buffers[j..];
    assert buffers == front + back && back[0] == buffers[j] && front[i] == buffers[i];
    BusyConcat(front, back);
    BusyHas(front, i);
    BusyHas(back, 0);
    var k :| 0 <= k < |Busy(front)| && Busy(front)[k] == front[i];
    var l :| 0 <= l < |Busy(back)| && Busy(back)[l] == back[0];
    assert Busy(buffers)[k] == buffers[i] && Busy(buffers)[|Busy(front)| + l] == buffers[j];
  }

  lemma {:induction false} BusyHas(buffers: seq<Buffer>, i: nat)
    requires i < |buffers| && buffers[i].busy
    ensures exists k :: 0 <= k < |Busy(buffers)| && Busy(buffers)[k] == buffers[i]
  {
    var front, last := buffers[..|buffers| - 1], buffers[|buffers| - 1];
    if i < |front| {
      BusyHas(front, i);
      var k :| 0 <= k < |Busy(front)| && Busy(front)[k] == front[i];
      assert Busy(buffers)[k] == buffers[i];
    } else {
      assert Busy(buffers)[|Busy(front)|] == last;
    }
  }

  lemma {:induction false} BusyMembers(buffers: seq<Buffer>)
    requires forall i, j :: 0 <= i < j < |buffers| ==> buffers[i] != buffers[j]
    ensures forall b :: b in Busy(buffers) <==> b in buffers && b.busy
    ensures var r := Busy(buffers); |r| <= |buffers| && forall i, j :: 0 <= i < j < |r| ==> r[i] != r[j]
  {
    if buffers != [] {
      var front, last := buffers[..|buffers| - 1], buffers[|buffers| - 1];
      BusyMembers(front);
      assert buffers == front + [last];
      assert last !in front;
    }
  }

  lemma {:induction false} SameCount(locks: set<BufferLock>, leased: set<Buffer?>)
    requires forall l, m :: l in locks && m in locks && l.buffer == m.buffer ==> l == m
    requires leased == set l | l in locks :: l.buffer
    ensures |leased| == |locks|
    decreases locks
  {
    if locks != {} {
      var l :| l in locks;
      var rest := locks - {l};
      assert leased - {l.buffer} == set m | m in rest :: m.buffer;
      SameCount(rest, leased - {l.buffer});
    }
  }

  lemma {:induction false} SubsetCount<T>(a: set<T>, b: set<T>)
    requires a <= b
    ensures |a| <= |b|
    decreases a
  {
    if a != {} {
      var x :| x in a;
      SubsetCount(a - {x}, b - {x});
    }
  }

  lemma {:induction false} SeqCount(buffers: seq<Buffer>, all: set<Buffer?>)
    requires all == set b: Buffer? | b in buffers
    ensures |all| <= |buffers|
  {
    if buffers != [] {
      var front, last := buffers[..|buffers| - 1], buffers[|buffers| - 1];
      var most := set b: Buffer? | b in front;
      SeqCount(front, most);
      assert buffers == front + [last];
      assert all == most + {last};
    }
  }
}
