/**
 The file sink as a value: what is buffered, and every WriteFile call made so far.
 The disk is not a field: it is what those calls left behind.
 */
module SinkModel {
  import opened Words

  /** What the operating system answered to one WriteFile: it reports success or not, and it
      stored up to `written` bytes of the block. */
  datatype WriteOutcome = WriteOutcome(ok: bool, written: nat)

  type Os = nat -> WriteOutcome

  /** Why a WriteFile was made: `write` making room, `write` sending a large chunk, or a flush. */
  datatype Cause = Drain | Direct | Flush

  /** One WriteFile call: the block it was given, and the byte count its caller wanted written. */
  datatype OsWrite = OsWrite(cause: Cause, block: seq<byte>, asked: nat, outcome: WriteOutcome) {
    function Landed(): (n: nat)
      ensures n <= |block|
    {
      if outcome.written < |block| then outcome.written else |block|
    }

    predicate Full() {
      outcome.ok && Landed() == |block|
    }

    /** The caller treats the block as written: always for the buffer, for a large chunk only
        when the call succeeded and the counts agree. */
    predicate Kept() {
      cause != Direct || (outcome.ok && Landed() == asked)
    }

    function Dropped(): nat {
      if Kept() then |block| - Landed() else 0
    }
  }

  datatype Sink = Sink(handle: bool, hasBuffer: bool, capacity: nat, buffered: seq<byte>, log: seq<OsWrite>) {
    predicate Ready() {
      handle && hasBuffer
    }

    predicate Valid() {
      && 0 < capacity < TWO_32
      && |buffered| <= capacity
      && (buffered != [] ==> Ready())
      && forall k :: 0 <= k < |log| ==> EntryValid(log[k])
    }

    predicate EntryValid(e: OsWrite) {
      if e.cause == Direct
      then e.asked >= capacity && |e.block| == Dword(e.asked)
      else e.asked == |e.block| && 0 < |e.block| <= capacity
    }

    function Call(os: Os, cause: Cause, block: seq<byte>, asked: nat): OsWrite {
      OsWrite(cause, block, asked, os(|log|))
    }

    function Disk(): seq<byte> {
      DiskOf(log)
    }

    /** Everything the sink holds for its caller, on disk or not. */
    function Contents(): seq<byte> {
      Disk() + buffered
    }
  }

  /** flush_buffer: the result of WriteFile is ignored and the buffer emptied. */
  function Drained(s: Sink, os: Os, cause: Cause): Sink {
    if s.buffered == [] then s
    else s.(buffered := [], log := s.log + [s.Call(os, cause, s.buffered, |s.buffered|)])
  }

  function Flushed(s: Sink, os: Os): Sink {
    Drained(s, os, Flush)
  }

  /** write: the new sink and the returned bool. The block length is cast to a DWORD. */
  function Written(s: Sink, os: Os, data: seq<byte>): (Sink, bool) {
    if !s.Ready() then (s, false)
    else if |data| >= s.capacity then
      var d := Drained(s, os, Drain);
      var call := d.Call(os, Direct, data[..Dword(|data|)], |data|);
      (d.(log := d.log + [call]), call.Kept())
    else
      var d := if |s.buffered| + |data| > s.capacity then Drained(s, os, Drain) else s;
      (d.(buffered := d.buffered + data), true)
  }

  // ----- what a log of calls amounts to

  function DiskOf(log: seq<OsWrite>): seq<byte> {
    if log == [] then []
    else
      var e := log[|log| - 1];
      DiskOf(log[..|log| - 1]) + e.block[..e.Landed()]
  }

  /** The blocks the sink counts as written, in order. */
  function Committed(log: seq<OsWrite>): seq<byte> {
    if log == [] then []
    else
      var e := log[|log| - 1];
      Committed(log[..|log| - 1]) + if e.Kept() then e.block else []
  }

  function DroppedBytes(log: seq<OsWrite>): nat {
    if log == [] then 0 else DroppedBytes(log[..|log| - 1]) + log[|log| - 1].Dropped()
  }

  /** Bytes on disk that belong to blocks the sink counts as written. */
  function KeptBytesOnDisk(log: seq<OsWrite>): nat {
    if log == [] then 0
    else
      var e := log[|log| - 1];
      KeptBytesOnDisk(log[..|log| - 1]) + if e.Kept() then e.Landed() else 0
  }

  function CallsByWrite(log: seq<OsWrite>): nat {
    if log == [] then 0
    else CallsByWrite(log[..|log| - 1]) + if log[|log| - 1].cause == Flush then 0 else 1
  }

  predicate AllFull(log: seq<OsWrite>) {
    forall k :: 0 <= k < |log| ==> log[k].Full()
  }

  /** No block was cut by the cast of its length to a DWORD. */
  predicate Uncut(log: seq<OsWrite>) {
    forall k :: 0 <= k < |log| ==> log[k].asked == |log[k].block|
  }

  /** No large chunk was refused. */
  predicate AllKept(log: seq<OsWrite>) {
    forall k :: 0 <= k < |log| ==> log[k].Kept()
  }

  /** The guard flush_buffer does not have: every WriteFile whose answer it ignored took the whole
      buffer. */
  predicate FlushesLanded(log: seq<OsWrite>) {
    forall k :: 0 <= k < |log| && log[k].cause != Direct ==> log[k].outcome.written >= |log[k].block|
  }

  lemma LogSnoc(log: seq<OsWrite>, e: OsWrite)
    ensures DiskOf(log + [e]) == DiskOf(log) + e.block[..e.Landed()]
    ensures Committed(log + [e]) == Committed(log) + if e.Kept() then e.block else []
    ensures DroppedBytes(log + [e]) == DroppedBytes(log) + e.Dropped()
    ensures KeptBytesOnDisk(log + [e]) == KeptBytesOnDisk(log) + if e.Kept() then e.Landed() else 0
    ensures CallsByWrite(log + [e]) == CallsByWrite(log) + if e.cause == Flush then 0 else 1
  {
    assert (log + [e])[..|log|] == log;
  }

  lemma FlagsSnoc(log: seq<OsWrite>, e: OsWrite)
    ensures AllFull(log + [e]) <==> AllFull(log) && e.Full()
    ensures Uncut(log + [e]) <==> Uncut(log) && e.asked == |e.block|
    ensures AllKept(log + [e]) <==> AllKept(log) && e.Kept()
  {
    var w := log + [e];
    assert w[|log|] == e;
    assert forall k :: 0 <= k < |log| ==> log[k] == w[k];
  }

  lemma DrainStep(s: Sink, os: Os, cause: Cause)
    requires s.Valid() && cause != Direct
    ensures var d := Drained(s, os, cause);
      && d.Valid() && d.buffered == []
      && s.log <= d.log
      && Committed(d.log) == Committed(s.log) + s.buffered
      && (AllFull(d.log) ==> AllFull(s.log) && d.Disk() == s.Disk() + s.buffered)
      && (Uncut(s.log) ==> Uncut(d.log))
      && (AllKept(s.log) ==> AllKept(d.log))
      && CallsByWrite(d.log) == CallsByWrite(s.log) + (if cause == Flush || s.buffered == [] then 0 else 1)
  {
    if s.buffered != [] {
      var e := s.Call(os, cause, s.buffered, |s.buffered|);
      LogSnoc(s.log, e);
      FlagsSnoc(s.log, e);
    }
  }

  /** A large chunk goes out whole or is refused. */
  lemma DirectStep(d: Sink, os: Os, data: seq<byte>, e: OsWrite)
    requires d.Valid() && d.Ready() && d.buffered == [] && |data| >= d.capacity
    requires e == d.Call(os, Direct, data[..Dword(|data|)], |data|)
    ensures var w := d.(log := d.log + [e]);
      && w.Valid()
      && Committed(w.log) == Committed(d.log) + (if e.Kept() then data else [])
      && CallsByWrite(w.log) == CallsByWrite(d.log) + 1
      && (AllFull(w.log) ==> AllFull(d.log))
      && (|data| < TWO_32 && Uncut(d.log) ==> Uncut(w.log))
      && (AllKept(d.log) && e.Kept() ==> AllKept(w.log))
      && (AllFull(w.log) ==> (e.Kept() <==> |data| < TWO_32))
  {
    LogSnoc(d.log, e);
    FlagsSnoc(d.log, e);
    assert e.Kept() ==> e.block == data;
  }

  /** What one write did to the sink: the rule that `WriteStep` proves on every path. */
  ghost predicate WriteEffect(s: Sink, data: seq<byte>, w: Sink, ok: bool) {
    && w.Valid() && w.handle == s.handle && w.hasBuffer == s.hasBuffer && w.capacity == s.capacity
    && Committed(w.log) + w.buffered == Committed(s.log) + s.buffered + (if ok then data else [])
    && (AllFull(w.log) ==> AllFull(s.log) && (ok <==> s.Ready() && |data| < TWO_32))
    && (|data| < TWO_32 && Uncut(s.log) ==> Uncut(w.log))
    && (ok && AllKept(s.log) ==> AllKept(w.log))
  }

  lemma LargeWrite(s: Sink, os: Os, data: seq<byte>)
    requires s.Valid() && s.Ready() && |data| >= s.capacity
    ensures WriteEffect(s, data, Written(s, os, data).0, Written(s, os, data).1)
  {
    DrainStep(s, os, Drain);
    var d := Drained(s, os, Drain);
    DirectStep(d, os, data, d.Call(os, Direct, data[..Dword(|data|)], |data|));
  }

  lemma SmallWrite(s: Sink, os: Os, data: seq<byte>)
    requires s.Valid() && s.Ready() && |data| < s.capacity
    ensures WriteEffect(s, data, Written(s, os, data).0, Written(s, os, data).1)
  {
    if |s.buffered| + |data| > s.capacity {
      DrainStep(s, os, Drain);
    }
  }

  /** A write hands over exactly its data, in order, and only when it says so. */
  lemma {:induction false} WriteStep(s: Sink, os: Os, data: seq<byte>)
    requires s.Valid()
    ensures WriteEffect(s, data, Written(s, os, data).0, Written(s, os, data).1)
  {
    if s.Ready() && |data| >= s.capacity {
      LargeWrite(s, os, data);
    } else if s.Ready() {
      SmallWrite(s, os, data);
    }
  }

  /** The part of the above that an object over the sink needs. */
  lemma StaysValid(s: Sink, os: Os, data: seq<byte>)
    requires s.Valid()
    ensures Drained(s, os, Drain).Valid() && Drained(s, os, Flush).Valid() && Written(s, os, data).0.Valid()
  {
    hide Written, Drained, Committed, DiskOf;
    DrainStep(s, os, Drain);
    DrainStep(s, os, Flush);
    WriteStep(s, os, data);
  }
}
