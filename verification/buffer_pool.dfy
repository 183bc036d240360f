/** BufferPool: a first-in first-out queue of pre-allocated buffers. */
module BufferPools {
  import opened Words

  class BufferPool {
    var buffers: seq<array<byte>>
    var freeBuffers: seq<array<byte>>
    /** The buffers of the pool, followed by whatever else was ever released to it. */
    ghost var known: seq<array<byte>>
    /** The free queue as positions in `known`. */
    ghost var freeIds: seq<nat>

    ghost predicate Valid()
      reads this
    {
      && buffers <= known && Distinct(known)
      && |freeIds| == |freeBuffers|
      && forall k :: 0 <= k < |freeIds| ==> freeIds[k] < |known| && freeBuffers[k] == known[freeIds[k]]
    }

    constructor (bufferSize: nat, count: nat)
      ensures Valid() && known == buffers && |buffers| == count && freeIds == Upto(count)
      ensures forall k :: 0 <= k < count ==> fresh(buffers[k]) && buffers[k].Length == bufferSize
    {
      buffers, freeBuffers, known, freeIds := [], [], [], [];
      new;
      for i := 0 to count
        invariant Valid() && known == buffers && |buffers| == i && freeIds == Upto(i)
        invariant forall k :: 0 <= k < i ==> fresh(buffers[k]) && buffers[k].Length == bufferSize
      {
        var buffer := new byte[bufferSize];
        buffers := buffers + [buffer];
        freeBuffers := freeBuffers + [buffer];
        known := known + [buffer];
        freeIds := freeIds + [i];
      }
    }

    method Acquire() returns (buffer: array?<byte>)
      requires Valid()
      modifies this
      ensures Valid() && buffers == old(buffers) && known == old(known)
      ensures buffer == null <==> old(freeIds) == []
      ensures buffer == null ==> freeIds == []
      ensures buffer != null ==> buffer == known[old(freeIds)[0]] && freeIds == old(freeIds)[1..]
    {
      if |freeBuffers| == 0 {
        return null;
      }
      buffer := freeBuffers[0];
      freeBuffers := freeBuffers[1..];
      freeIds := freeIds[1..];
    }

    /** Any buffer is taken, one of the pool's or not. */
    method Release(buffer: array<byte>) returns (ghost id: nat)
      requires Valid()
      modifies this
      ensures Valid() && buffers == old(buffers) && old(known) <= known
      ensures id < |known| && known[id] == buffer
      ensures buffer in old(known) ==> known == old(known)
      ensures freeIds == old(freeIds) + [id]
    {
      if buffer !in known {
        known := known + [buffer];
      }
      id :| 0 <= id < |known| && known[id] == buffer;
      freeBuffers := freeBuffers + [buffer];
      freeIds := freeIds + [id];
    }
  }

  predicate Distinct(s: seq<array<byte>>) {
    forall i, j :: 0 <= i < j < |s| ==> s[i] != s[j]
  }

  function Upto(n: nat): seq<nat> {
    seq(n, i => i)
  }

  // ----- the pool and its clients, as values

  /** The free queue, and the buffers clients hold. */
  datatype Pool = Pool(free: seq<nat>, held: multiset<nat>) {
    function All(): multiset<nat> {
      multiset(free) + held
    }
  }

  datatype PoolOp = Take | Give(id: nat)

  function Served(p: Pool, op: PoolOp): Pool {
    match op
    case Take => if p.free == [] then p else Pool(p.free[1..], p.held + multiset{p.free[0]})
    case Give(id) => Pool(p.free + [id], p.held - multiset{id})
  }

  function ServedAll(p: Pool, ops: seq<PoolOp>): Pool
    decreases |ops|
  {
    if ops == [] then p else ServedAll(Served(p, ops[0]), ops[1..])
  }

  /** Clients give back only what they hold. */
  predicate Disciplined(p: Pool, ops: seq<PoolOp>)
    decreases |ops|
  {
    ops == [] || ((ops[0].Give? ==> ops[0].id in p.held) && Disciplined(Served(p, ops[0]), ops[1..]))
  }

  /** One operation keeps the buffers together exactly when it is not a give of something not held. */
  lemma {:induction false} ServedKeepsIff(p: Pool, op: PoolOp)
    ensures Served(p, op).All() == p.All() <==> (op.Give? ==> op.id in p.held)
  {
    match op
    case Take =>
      if p.free != [] {
        assert p.free == [p.free[0]] + p.free[1..];
      }
    case Give(id) =>
      if id !in p.held {
        assert Served(p, op).All()[id] == p.All()[id] + 1;
      } else {
        assert p.held - multiset{id} + multiset{id} == p.held;
      }
  }

  lemma {:induction false} DisciplineKeepsAll(p: Pool, ops: seq<PoolOp>)
    requires Disciplined(p, ops)
    ensures ServedAll(p, ops).All() == p.All()
    decreases |ops|
  {
    if ops != [] {
      ServedKeepsIff(p, ops[0]);
      DisciplineKeepsAll(Served(p, ops[0]), ops[1..]);
    }
  }

  lemma {:induction false} UptoOnce(n: nat)
    ensures forall id: nat :: multiset(Upto(n))[id] == if id < n then 1 else 0
  {
    if n > 0 {
      UptoOnce(n - 1);
      assert Upto(n) == Upto(n - 1) + [n - 1];
    }
  }

  /** Under that discipline every one of the n buffers is at all times either free or held, once. */
  lemma {:induction false} BuffersPartition(n: nat, ops: seq<PoolOp>, id: nat)
    requires Disciplined(Pool(Upto(n), multiset{}), ops)
    ensures var p := ServedAll(Pool(Upto(n), multiset{}), ops);
      multiset(p.free)[id] + p.held[id] == if id < n then 1 else 0
  {
    DisciplineKeepsAll(Pool(Upto(n), multiset{}), ops);
    UptoOnce(n);
    var p := ServedAll(Pool(Upto(n), multiset{}), ops);
    assert p.All()[id] == multiset(Upto(n))[id];
  }
}
