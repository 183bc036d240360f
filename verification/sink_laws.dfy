/** Laws of the file sink over every sequence of writes and flushes, for every operating system. */
module SinkLaws {
  import opened Words
  import opened SinkModel

  datatype SinkOp = WriteOp(data: seq<byte>) | FlushOp {
    function Offered(): seq<byte> {
      if WriteOp? then data else []
    }
  }

  function Applied(s: Sink, os: Os, op: SinkOp): Sink {
    match op
    case WriteOp(data) => Written(s, os, data).0
    case FlushOp => Flushed(s, os)
  }

  /** The bytes a caller may take as handed over: those of the writes that returned true. */
  function Accepted(s: Sink, os: Os, op: SinkOp): seq<byte> {
    if op.WriteOp? && Written(s, os, op.data).1 then op.data else []
  }

  function RunOps(s: Sink, os: Os, ops: seq<SinkOp>): Sink
    decreases |ops|
  {
    if ops == [] then s else RunOps(Applied(s, os, ops[0]), os, ops[1..])
  }

  function AcceptedBy(s: Sink, os: Os, ops: seq<SinkOp>): seq<byte>
    decreases |ops|
  {
    if ops == [] then []
    else Accepted(s, os, ops[0]) + AcceptedBy(Applied(s, os, ops[0]), os, ops[1..])
  }

  function Offered(ops: seq<SinkOp>): seq<byte> {
    if ops == [] then [] else ops[0].Offered() + Offered(ops[1..])
  }

  /** The destructor's flush_buffer. */
  function SinkDestroyed(s: Sink, os: Os): Sink {
    Flushed(s, os)
  }

  lemma OpStep(s: Sink, os: Os, op: SinkOp)
    requires s.Valid()
    ensures var t := Applied(s, os, op);
      && t.Valid() && t.Ready() == s.Ready() && t.capacity == s.capacity
      && Committed(t.log) + t.buffered == Committed(s.log) + s.buffered + Accepted(s, os, op)
      && (AllFull(t.log) ==> AllFull(s.log))
      && (AllFull(t.log) && s.Ready() && |op.Offered()| < TWO_32 ==> Accepted(s, os, op) == op.Offered())
      && (Uncut(s.log) && |op.Offered()| < TWO_32 ==> Uncut(t.log))
  {
    match op
    case WriteOp(data) => WriteStep(s, os, data);
    case FlushOp => DrainStep(s, os, Flush);
  }

  lemma Reassociate(a: seq<byte>, b: seq<byte>, c: seq<byte>)
    ensures a + b + c == a + (b + c)
  {
  }

  /** Whatever WriteFile answers: the accepted bytes are, in order and without gaps, the blocks
      the sink counts as written followed by its buffer. */
  lemma {:induction false} AcceptedIsCommittedPlusBuffer(s: Sink, os: Os, ops: seq<SinkOp>)
    requires s.Valid()
    ensures var t := RunOps(s, os, ops);
      && t.Valid() && t.Ready() == s.Ready() && t.capacity == s.capacity
      && Committed(t.log) + t.buffered == Committed(s.log) + s.buffered + AcceptedBy(s, os, ops)
      && (AllFull(t.log) ==> AllFull(s.log))
    decreases |ops|
  {
    if ops != [] {
      var m := Applied(s, os, ops[0]);
      OpStep(s, os, ops[0]);
      AcceptedIsCommittedPlusBuffer(m, os, ops[1..]);
      Reassociate(Committed(s.log) + s.buffered, Accepted(s, os, ops[0]), AcceptedBy(m, os, ops[1..]));
    }
  }

  lemma {:induction false} CommittedSplits(log: seq<OsWrite>)
    ensures |Committed(log)| == KeptBytesOnDisk(log) + DroppedBytes(log)
  {
    if log != [] {
      CommittedSplits(log[..|log| - 1]);
    }
  }

  /** Byte conservation: an accepted byte is on disk, in the buffer, or was dropped by a buffer
      flush; one flush drops at most one buffer, and a large chunk drops nothing. */
  lemma {:induction false} BytesAreConserved(s: Sink, os: Os, ops: seq<SinkOp>)
    requires s.Valid() && s.log == [] && s.buffered == []
    ensures var t := RunOps(s, os, ops);
      && |AcceptedBy(s, os, ops)| == KeptBytesOnDisk(t.log) + |t.buffered| + DroppedBytes(t.log)
      && |t.buffered| <= t.capacity
      && forall k :: 0 <= k < |t.log| ==>
           && t.log[k].Dropped() <= t.capacity
           && (t.log[k].cause == Direct ==> t.log[k].Dropped() == 0)
  {
    AcceptedIsCommittedPlusBuffer(s, os, ops);
    var t := RunOps(s, os, ops);
    CommittedSplits(t.log);
    assert |Committed(t.log) + t.buffered| == |AcceptedBy(s, os, ops)|;
    forall k | 0 <= k < |t.log|
      ensures t.log[k].Dropped() <= t.capacity
      ensures t.log[k].cause == Direct ==> t.log[k].Dropped() == 0
    {
      assert t.EntryValid(t.log[k]);
    }
  }

  lemma {:induction false} FullLogIsOnDisk(log: seq<OsWrite>)
    requires AllFull(log) && Uncut(log)
    ensures DiskOf(log) == Committed(log)
  {
    if log != [] {
      var e := log[|log| - 1];
      assert e.Full() && e.asked == |e.block|;
      var past := log[..|log| - 1];
      assert forall k :: 0 <= k < |past| ==> past[k] == log[k];
      FullLogIsOnDisk(past);
    }
  }

  predicate DwordSized(ops: seq<SinkOp>) {
    forall k :: 0 <= k < |ops| ==> |ops[k].Offered()| < TWO_32
  }

  lemma {:induction false} FullRunAccepts(s: Sink, os: Os, ops: seq<SinkOp>)
    requires s.Valid() && s.Ready() && Uncut(s.log) && DwordSized(ops) && AllFull(RunOps(s, os, ops).log)
    ensures AcceptedBy(s, os, ops) == Offered(ops) && Uncut(RunOps(s, os, ops).log)
    decreases |ops|
  {
    if ops != [] {
      var t := Applied(s, os, ops[0]);
      assert |ops[0].Offered()| < TWO_32;
      assert forall k :: 0 <= k < |ops[1..]| ==> ops[1..][k] == ops[k + 1];
      OpStep(s, os, ops[0]);
      AcceptedIsCommittedPlusBuffer(t, os, ops[1..]);
      FullRunAccepts(t, os, ops[1..]);
    }
  }

  /** Refinement of "append to a file": as long as every WriteFile made was full, a ready sink takes
      every write and holds exactly the offered bytes in order; and if the last flush is full too,
      after destruction they are the file. */
  lemma {:induction false} FullWritesAppend(s: Sink, os: Os, ops: seq<SinkOp>)
    requires s.Valid() && s.Ready() && s.log == [] && s.buffered == [] && DwordSized(ops)
    ensures AllFull(RunOps(s, os, ops).log) ==>
      AcceptedBy(s, os, ops) == Offered(ops) && RunOps(s, os, ops).Contents() == Offered(ops)
    ensures AllFull(SinkDestroyed(RunOps(s, os, ops), os).log) ==>
      SinkDestroyed(RunOps(s, os, ops), os).Disk() == Offered(ops)
    ensures SinkDestroyed(RunOps(s, os, ops), os).buffered == []
  {
    var t := RunOps(s, os, ops);
    AcceptedIsCommittedPlusBuffer(s, os, ops);
    DrainStep(t, os, Flush);
    if AllFull(t.log) {
      FullRunAccepts(s, os, ops);
      FullLogIsOnDisk(t.log);
    }
  }

  /** A flush that writes in full only moves bytes, and a second flush has nothing to do. */
  lemma {:induction false} FlushMovesOnly(s: Sink, os: Os)
    requires s.Valid()
    ensures AllFull(Flushed(s, os).log) ==> Flushed(s, os).Contents() == s.Contents()
    ensures Flushed(s, os).buffered == []
    ensures Flushed(Flushed(s, os), os) == Flushed(s, os)
  {
    DrainStep(s, os, Flush);
  }

  /** The length cast matters exactly from 4 GiB up: a ready sink whose WriteFile writes in full
      still refuses such a chunk. */
  lemma {:induction false} FullWriteAnswer(s: Sink, os: Os, data: seq<byte>)
    requires s.Valid() && AllFull(Written(s, os, data).0.log)
    ensures Written(s, os, data).1 <==> s.Ready() && |data| < TWO_32
  {
    WriteStep(s, os, data);
  }

  // ----- which path a chunk takes

  /** A chunk of at least the capacity is handed to WriteFile at once, after the buffer; the caller's
      answer is the one that call got. */
  lemma {:induction false} LargeChunkGoesOut(s: Sink, os: Os, data: seq<byte>)
    requires s.Valid() && s.Ready() && |data| >= s.capacity
    ensures var (t, ok) := Written(s, os, data);
      var last := |s.log| + if s.buffered == [] then 0 else 1;
      && t.buffered == [] && |t.log| == last + 1 && t.log[..|s.log|] == s.log
      && (last > |s.log| ==> t.log[|s.log|] == OsWrite(Drain, s.buffered, |s.buffered|, os(|s.log|)))
      && t.log[last] == OsWrite(Direct, data[..|data| % 0x1_0000_0000], |data|, os(last))
      && (ok <==> os(last).ok && t.log[last].Landed() == |data|)
  {
  }

  /** A smaller one is taken without looking at any answer: it joins the buffer, which is drained
      first exactly when the two together exceed the capacity. */
  lemma {:induction false} SmallChunkIsBuffered(s: Sink, os: Os, data: seq<byte>)
    requires s.Valid() && s.Ready() && |data| < s.capacity
    ensures var (t, ok) := Written(s, os, data);
      && ok
      && (if |s.buffered| + |data| <= s.capacity
          then t.log == s.log && t.buffered == s.buffered + data
          else t.log == s.log + [OsWrite(Drain, s.buffered, |s.buffered|, os(|s.log|))] && t.buffered == data)
  {
  }

  /** The blocks of the WriteFile calls made for large chunks. */
  function DirectBlocks(log: seq<OsWrite>): seq<seq<byte>> {
    if log == [] then []
    else
      var e := log[|log| - 1];
      DirectBlocks(log[..|log| - 1]) + if e.cause == Direct then [e.block] else []
  }

  function LargeChunk(op: SinkOp, capacity: nat): seq<seq<byte>> {
    if op.WriteOp? && |op.data| >= capacity then [op.data[..|op.data| % 0x1_0000_0000]] else []
  }

  /** The chunks offered that are no smaller than the capacity, each as far as a DWORD counts. */
  function LargeChunks(ops: seq<SinkOp>, capacity: nat): seq<seq<byte>> {
    if ops == [] then [] else LargeChunk(ops[0], capacity) + LargeChunks(ops[1..], capacity)
  }

  lemma DirectNext(log: seq<OsWrite>, e: OsWrite)
    ensures DirectBlocks(log + [e]) == DirectBlocks(log) + if e.cause == Direct then [e.block] else []
  {
    assert (log + [e])[..|log|] == log;
  }

  lemma DrainIsNotDirect(s: Sink, os: Os, cause: Cause)
    requires cause != Direct
    ensures DirectBlocks(Drained(s, os, cause).log) == DirectBlocks(s.log)
  {
    DirectNext(s.log, s.Call(os, cause, s.buffered, |s.buffered|));
  }

  lemma OpDirects(s: Sink, os: Os, op: SinkOp)
    requires s.Valid() && s.Ready()
    ensures DirectBlocks(Applied(s, os, op).log) == DirectBlocks(s.log) + LargeChunk(op, s.capacity)
  {
    hide DirectBlocks;
    DrainIsNotDirect(s, os, Drain);
    DrainIsNotDirect(s, os, Flush);
    var d := Drained(s, os, Drain);
    var data := op.Offered();
    DirectNext(d.log, d.Call(os, Direct, data[..Dword(|data|)], |data|));
  }

  /** Over any operations and whatever WriteFile answers, the blocks sent directly are the offered
      chunks of at least the capacity, all of them and in order. */
  lemma {:induction false} LargeChunksGoDirect(s: Sink, os: Os, ops: seq<SinkOp>)
    requires s.Valid() && s.Ready()
    ensures DirectBlocks(RunOps(s, os, ops).log) == DirectBlocks(s.log) + LargeChunks(ops, s.capacity)
    decreases |ops|
  {
    hide DirectBlocks, Applied, LargeChunk, Committed, AllFull, Uncut, Accepted;
    if ops != [] {
      OpStep(s, os, ops[0]);
      OpDirects(s, os, ops[0]);
      LargeChunksGoDirect(Applied(s, os, ops[0]), os, ops[1..]);
    }
  }

  // ----- amortised cost

  lemma OneMoreCall(calls: nat, w: nat)
    ensures (calls + 1) * w == calls * w + w
    ensures (calls + 2) * w == calls * w + w + w
  {
  }

  /** The account of a log and a buffer level, at a buffer's worth a call. */
  function Cost(log: seq<OsWrite>, level: nat, capacity: nat): nat {
    CallsByWrite(log) * capacity + level
  }

  lemma DrainCost(s: Sink, os: Os)
    requires s.Valid()
    ensures var d := Drained(s, os, Drain);
      Cost(d.log, 0, s.capacity) <= Cost(s.log, |s.buffered|, s.capacity) + s.capacity - |s.buffered|
  {
    hide Committed, AllFull, Uncut, AllKept, DiskOf, CallsByWrite;
    OneMoreCall(CallsByWrite(s.log), s.capacity);
    DrainStep(s, os, Drain);
  }

  lemma LargeCost(s: Sink, os: Os, data: seq<byte>)
    requires s.Valid() && s.Ready() && |data| >= s.capacity
    ensures var t := Written(s, os, data).0;
      Cost(t.log, |t.buffered|, s.capacity) <= Cost(s.log, |s.buffered|, s.capacity) + 2 * |data|
  {
    hide Committed, AllFull, Uncut, AllKept, DiskOf, CallsByWrite;
    DrainCost(s, os);
    DrainStep(s, os, Drain);
    var d := Drained(s, os, Drain);
    OneMoreCall(CallsByWrite(d.log), s.capacity);
    DirectStep(d, os, data, d.Call(os, Direct, data[..Dword(|data|)], |data|));
  }

  /** One write pays for its own calls: the buffer level is the potential. */
  lemma WriteCost(s: Sink, os: Os, data: seq<byte>)
    requires s.Valid()
    ensures var t := Written(s, os, data).0;
      Cost(t.log, |t.buffered|, s.capacity) <= Cost(s.log, |s.buffered|, s.capacity) + 2 * |data|
  {
    hide Committed, AllFull, Uncut, AllKept, DiskOf, CallsByWrite;
    if s.Ready() {
      if |data| >= s.capacity {
        LargeCost(s, os, data);
      } else {
        DrainCost(s, os);
        DrainStep(s, os, Drain);
      }
    }
  }

  lemma OpCost(s: Sink, os: Os, op: SinkOp)
    requires s.Valid()
    ensures var t := Applied(s, os, op);
      Cost(t.log, |t.buffered|, s.capacity) <= Cost(s.log, |s.buffered|, s.capacity) + 2 * |op.Offered()|
  {
    match op
    case WriteOp(data) => WriteCost(s, os, data);
    case FlushOp => DrainStep(s, os, Flush);
  }

  /** Amortised bound on the WriteFile calls made by `write`, over every run and however the
      calls turn out; explicit flushes are not charged and do not disturb it. */
  lemma {:induction false} AmortisedCalls(s: Sink, os: Os, ops: seq<SinkOp>)
    requires s.Valid()
    ensures var t := RunOps(s, os, ops);
      CallsByWrite(t.log) * s.capacity + |t.buffered|
        <= CallsByWrite(s.log) * s.capacity + |s.buffered| + 2 * |Offered(ops)|
    decreases |ops|
  {
    if ops != [] {
      OpStep(s, os, ops[0]);
      OpCost(s, os, ops[0]);
      AmortisedCalls(Applied(s, os, ops[0]), os, ops[1..]);
    }
  }
}
