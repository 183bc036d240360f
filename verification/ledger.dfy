/**
 The books of a session: what its trace says was counted, stored and acknowledged, against what
 the sink, the metrics and the buffer pool hold.
 */
module Ledgers {
  import opened Words
  import opened VdiProtocol
  import opened SinkModel
  import opened MetricsModel
  import opened FaultInjectors
  import opened BufferPools
  import opened Sessions
  import opened TurnFacts

  /** Read off a trace: the sizes counted and the buffers lent for them, the write commands whose
      data the sink accepted, those acknowledged, those whose acknowledgement failed, the sizes in all
      commands completed successfully, and how often the fault injector fired. */
  datatype Ledger = Ledger(
    sizes: seq<u64>, lent: seq<Option<nat>>,
    stored: seq<Command>, acked: seq<Command>, unacked: seq<Command>,
    completions: seq<u64>, injected: nat)

  const BLANK := Ledger([], [], [], [], [], [], 0)

  function Entered(l: Ledger, e: Event): Ledger {
    match e
    case Counted(size, lent) => l.(sizes := l.sizes + [size], lent := l.lent + [lent])
    case Store(_, cmd, ok) => if ok then l.(stored := l.stored + [cmd]) else l
    case Complete(_, cmd, hr) =>
      if Failed(hr) then
        if cmd.code == VDC_WRITE then l.(unacked := l.unacked + [cmd]) else l
      else
        var m := l.(completions := l.completions + [cmd.size]);
        if cmd.code == VDC_WRITE then m.(acked := m.acked + [cmd]) else m
    case Injected => l.(injected := l.injected + 1)
    case _ => l
  }

  function Ledgered(trace: seq<Event>): Ledger {
    if trace == [] then BLANK else Entered(Ledgered(trace[..|trace| - 1]), trace[|trace| - 1])
  }

  lemma LedgerNext(s: Session, e: Event)
    ensures Ledgered(s.Noted(e).trace) == Entered(Ledgered(s.trace), e)
  {
    assert (s.trace + [e])[..|s.trace|] == s.trace;
  }

  // ----- chunks as bytes

  /** The payloads of the commands, one after another. */
  function Joined(cmds: seq<Command>): seq<byte> {
    if cmds == [] then [] else Joined(cmds[..|cmds| - 1]) + Payload(cmds[|cmds| - 1])
  }

  function Sizes(cmds: seq<Command>): seq<u64> {
    seq(|cmds|, k requires 0 <= k < |cmds| => cmds[k].size)
  }

  predicate AllValid(cmds: seq<Command>) {
    forall k :: 0 <= k < |cmds| ==> ValidateWriteCommand(Some(cmds[k]))
  }

  lemma JoinedSnoc(cmds: seq<Command>, c: Command)
    ensures Joined(cmds + [c]) == Joined(cmds) + Payload(c)
    ensures Sizes(cmds + [c]) == Sizes(cmds) + [c.size]
  {
    assert (cmds + [c])[..|cmds|] == cmds;
  }

  lemma {:induction false} JoinedLength(cmds: seq<Command>)
    requires AllValid(cmds)
    ensures |Joined(cmds)| == Sum(Sizes(cmds))
  {
    if cmds != [] {
      var n := |cmds| - 1;
      JoinedLength(cmds[..n]);
      assert ValidateWriteCommand(Some(cmds[n]));
      assert Sizes(cmds)[..n] == Sizes(cmds[..n]);
    }
  }

  // ----- what always holds

  /** n chunks have each borrowed the buffer at the head of the queue and returned it to the tail. */
  ghost predicate PoolFits(s: Session, lent: seq<Option<nat>>) {
    && |s.free| == BUFFER_POOL_SIZE
    && (forall j :: 0 <= j < BUFFER_POOL_SIZE ==> s.free[j] == (|lent| + j) % BUFFER_POOL_SIZE)
    && (forall k :: 0 <= k < |lent| ==> lent[k] == Some(k % BUFFER_POOL_SIZE))
    && s.activeBuffers == 0
    && s.maxActiveBuffers == (if lent == [] then 0 else 1)
    && s.counters.acquires == s.counters.hits == s.counters.releases == s.counters.chunkCount
    && s.counters.misses == 0
  }

  ghost predicate SinkFits(s: Session, stored: seq<Command>) {
    && s.sink.Valid() && Uncut(s.sink.log)
    && AllValid(stored)
    && Committed(s.sink.log) + s.sink.buffered == Joined(stored)
  }

  /** The recorded timings belong, in order, to the commands completed. */
  predicate TimingsMatch(timings: seq<ChunkTiming>, completions: seq<u64>) {
    |timings| <= |completions| && forall k :: 0 <= k < |timings| ==> timings[k].size == completions[k]
  }

  ghost predicate CountersFit(s: Session, l: Ledger) {
    && Tallies(s.counters, l.sizes)
    && |l.lent| == |l.sizes|
    && PoolFits(s, l.lent)
  }

  /** The books inside a turn: `rejected` was counted and not stored, `pending` stored and not yet
      acknowledged. */
  ghost predicate Books(s: Session, rejected: seq<u64>, pending: seq<Command>) {
    var l := Ledgered(s.trace);
    && CountersFit(s, l) && SinkFits(s, l.stored)
    && l.sizes == Sizes(l.stored) + rejected
    && l.stored == l.acked + pending
    && l.unacked == []
    && TimingsMatch(s.counters.timings, l.completions)
    && |s.counters.timings| == |l.completions| && l.injected == 0
    && (rejected == [] ==> AllKept(s.sink.log))
  }

  /** Nothing is open: every counted chunk was stored, and every stored chunk acknowledged. */
  ghost predicate Balanced(s: Session) {
    Books(s, [], [])
  }

  /** The books at any end of a run: at most one thing went wrong, the last. */
  ghost predicate Closable(s: Session) {
    var l := Ledgered(s.trace);
    && CountersFit(s, l) && SinkFits(s, l.stored)
    && |l.stored| <= |l.sizes| && l.sizes[..|l.stored|] == Sizes(l.stored)
    && l.stored == l.acked + l.unacked
    && TimingsMatch(s.counters.timings, l.completions)
    && |s.counters.timings| + l.injected == |l.completions|
    && (|l.sizes| - |l.stored|) + |l.unacked| + l.injected <= 1
  }

  lemma BooksClosable(s: Session, rejected: seq<u64>)
    requires Books(s, rejected, []) && |rejected| <= 1
    ensures Closable(s)
  {
    hide Ledgered;
    var l := Ledgered(s.trace);
    assert l.sizes[..|l.stored|] == Sizes(l.stored);
  }

  /** Two sessions that differ in nothing the books record. */
  ghost predicate SameRecords(s: Session, t: Session) {
    && t.trace == s.trace && t.counters == s.counters && t.sink == s.sink
    && t.free == s.free && t.activeBuffers == s.activeBuffers && t.maxActiveBuffers == s.maxActiveBuffers
  }

  lemma CountersCarry(s: Session, t: Session, l: Ledger, m: Ledger)
    requires CountersFit(s, l) && m.sizes == l.sizes && m.lent == l.lent
    requires t.counters == s.counters && t.free == s.free
    requires t.activeBuffers == s.activeBuffers && t.maxActiveBuffers == s.maxActiveBuffers
    ensures CountersFit(t, m)
  {
  }

  lemma SinkCarries(s: Session, t: Session, stored: seq<Command>)
    requires t.sink == s.sink
    ensures SinkFits(s, stored) ==> SinkFits(t, stored)
  {
  }

  lemma RecordsCarry(s: Session, t: Session, rejected: seq<u64>, pending: seq<Command>)
    ensures SameRecords(s, t) && Books(s, rejected, pending) ==> Books(t, rejected, pending)
    ensures SameRecords(s, t) && Closable(s) ==> Closable(t)
  {
    hide Ledgered, CountersFit, SinkFits, AllKept;
    var l := Ledgered(s.trace);
    if SameRecords(s, t) && CountersFit(s, l) {
      CountersCarry(s, t, l, l);
      SinkCarries(s, t, l.stored);
    }
  }

  /** An event that enters nothing in the books. */
  predicate Neutral(e: Event) {
    !e.Counted? && !e.Store? && !e.Complete? && !e.Injected?
  }

  lemma NeutralCarries(s: Session, e: Event)
    requires Neutral(e)
    ensures Balanced(s) ==> Balanced(s.Noted(e))
    ensures Closable(s) ==> Closable(s.Noted(e))
  {
    hide Ledgered, CountersFit, SinkFits, AllKept;
    LedgerNext(s, e);
    var l := Ledgered(s.trace);
    if CountersFit(s, l) {
      CountersCarry(s, s.Noted(e), l, l);
      SinkCarries(s, s.Noted(e), l.stored);
    }
  }

  lemma SinkFlushFits(w: World, s: Session, stored: seq<Command>)
    requires SinkFits(s, stored)
    ensures SinkFits(s.(sink := Flushed(s.sink, w.os)), stored)
    ensures AllKept(s.sink.log) ==> AllKept(Flushed(s.sink, w.os).log)
  {
    hide Drained;
    DrainStep(s.sink, w.os, Flush);
  }

  /** Emptying the buffer leaves the books as they are. */
  lemma FlushCarries(w: World, s: Session)
    ensures Balanced(s) ==> Balanced(s.(sink := Flushed(s.sink, w.os)))
    ensures Closable(s) ==> Closable(s.(sink := Flushed(s.sink, w.os)))
  {
    hide Ledgered, CountersFit, SinkFits, AllKept, Flushed;
    var l := Ledgered(s.trace);
    if CountersFit(s, l) && SinkFits(s, l.stored) {
      CountersCarry(s, s.(sink := Flushed(s.sink, w.os)), l, l);
      SinkFlushFits(w, s, l.stored);
    }
  }

  lemma FlushEmpties(w: World, s: Sink)
    ensures Flushed(s, w.os).buffered == []
  {
  }

  lemma SinkFlushCarries(w: World, s: Session)
    ensures Balanced(s) ==> Balanced(SinkFlushed(w, s))
    ensures Closable(s) ==> Closable(SinkFlushed(w, s))
  {
    hide Ledgered;
    hide Books;
    hide Closable;
    FlushCarries(w, s);
    NeutralCarries(s.(sink := Flushed(s.sink, w.os)), FlushSink);
  }

  ghost predicate TurnBooks(t: Session, running: bool) {
    && Closable(t)
    && (running || t.state == STREAMING || t.state == FLUSHING ==> Balanced(t))
    && (t.state == FLUSHING ==> t.sink.buffered == [])
  }

  // ----- the stages of a turn

  lemma PoolStep(s: Session, size: u32, lent: seq<Option<nat>>)
    requires PoolFits(s, lent)
    ensures s.free != [] && PoolFits(CountChunk(s, size), lent + [Some(s.free[0])])
  {
    var t := CountChunk(s, size);
    assert s.free[0] == |lent| % BUFFER_POOL_SIZE;
    forall j | 0 <= j < BUFFER_POOL_SIZE
      ensures t.free[j] == (|lent| + 1 + j) % BUFFER_POOL_SIZE
    {
      if j < BUFFER_POOL_SIZE - 1 {
        assert t.free[j] == s.free[j + 1];
      }
    }
  }

  /** The pool's counters do not disturb the others. */
  lemma CountTallies(s: Session, sizes: seq<u64>, size: u32)
    requires Tallies(WithBytes(WithChunkSize(s.counters, size), size), sizes)
    ensures Tallies(CountChunk(s, size).counters, sizes)
  {
    hide Sum;
  }

  lemma CountNotes(s: Session, size: u32)
    requires s.free != []
    ensures var t := CountChunk(s, size);
      && t.trace == s.Noted(Counted(size, Some(s.free[0]))).trace
      && t.sink == s.sink && t.state == s.state && t.counters.timings == s.counters.timings
  {
  }

  lemma CountBooks(s: Session, size: u32)
    requires Balanced(s)
    ensures Books(CountChunk(s, size), [size], [])
    ensures CountChunk(s, size).sink == s.sink && CountChunk(s, size).state == s.state
    ensures AllKept(s.sink.log)
  {
    hide Ledgered, CountChunk, SinkFits;
    var l := Ledgered(s.trace);
    PoolStep(s, size, l.lent);
    CountNotes(s, size);
    TallyStep(s.counters, l.sizes, size);
    CountTallies(s, l.sizes + [size], size);
    LedgerNext(s, Counted(size, Some(s.free[0])));
    var t := CountChunk(s, size);
    SinkCarries(s, t, l.stored);
    assert Sizes(l.stored) + [] == Sizes(l.stored);
    hide PoolFits, Tallies, AllKept;
  }

  lemma StoredBooks(w: World, c: Session, dev: nat, cmd: Command, ok: bool)
    requires Books(c, [cmd.size], []) && AllKept(c.sink.log) && ValidateWriteCommand(Some(cmd))
    requires ok == Written(c.sink, w.os, Payload(cmd)).1
    ensures var d := c.(sink := Written(c.sink, w.os, Payload(cmd)).0).Noted(Store(dev, cmd, ok));
      if ok then Books(d, [], [cmd]) else Books(d, [cmd.size], [])
  {
    hide Ledgered, Written, Committed, Joined, CountersFit;
    var l := Ledgered(c.trace);
    WriteStep(c.sink, w.os, Payload(cmd));
    LedgerNext(c, Store(dev, cmd, ok));
    JoinedSnoc(l.stored, cmd);
    var d := c.(sink := Written(c.sink, w.os, Payload(cmd)).0).Noted(Store(dev, cmd, ok));
    CountersCarry(c, d, l, Ledgered(d.trace));
    assert Sizes(l.stored) + [cmd.size] + [] == Sizes(l.stored) + [cmd.size];
    assert l.acked + [] == l.acked;
  }

  lemma StoreBooks(w: World, s: Session, dev: nat, cmd: Command)
    requires Balanced(s)
    ensures var (t, running, us) := StoreChunk(w, s, dev, cmd);
      if running then Books(t, [], [cmd]) && t.state == s.state else Books(t, [cmd.size], []) && t.state == FAILED
  {
    hide Ledgered;
    hide CountChunk;
    hide Written;
    hide Books;
    CountBooks(s, cmd.size);
    var c := CountChunk(s, cmd.size);
    var (t, running, us) := StoreChunk(w, s, dev, cmd);
    if ValidateWriteCommand(Some(cmd)) && c.sink.handle {
      var (sink, ok) := Written(c.sink, w.os, Payload(cmd));
      StoredBooks(w, c, dev, cmd, ok);
      var d := c.(sink := sink).Noted(Store(dev, cmd, ok));
      RecordsCarry(d, t, [], [cmd]);
      RecordsCarry(d, t, [cmd.size], []);
    } else {
      RecordsCarry(c, t, [cmd.size], []);
    }
  }

  /** The books between a CompleteCommand and the timing that follows it. */
  ghost predicate Completed(s: Session, failed: bool) {
    var l := Ledgered(s.trace);
    && CountersFit(s, l) && SinkFits(s, l.stored)
    && l.sizes == Sizes(l.stored)
    && l.stored == l.acked + l.unacked && |l.unacked| <= 1 && l.injected == 0
    && AllKept(s.sink.log)
    && TimingsMatch(s.counters.timings, l.completions)
    && (if failed then |s.counters.timings| == |l.completions|
        else |s.counters.timings| + 1 == |l.completions| && l.unacked == [])
  }

  lemma CompletedBooks(s: Session, dev: nat, cmd: Command, hr: Hresult)
    requires Books(s, [], if cmd.code == VDC_WRITE then [cmd] else [])
    ensures Completed(s.Noted(Complete(dev, cmd, hr)), Failed(hr))
  {
    hide Ledgered, CountersFit, SinkFits, AllKept;
    LedgerNext(s, Complete(dev, cmd, hr));
    var c := s.Noted(Complete(dev, cmd, hr));
    CountersCarry(s, c, Ledgered(s.trace), Ledgered(c.trace));
    SinkCarries(s, c, Ledgered(s.trace).stored);
    var l := Ledgered(s.trace);
    assert Sizes(l.stored) + [] == Sizes(l.stored);
    assert l.acked + [cmd] + [] == l.acked + [cmd];
    assert l.acked + [] == l.acked;
  }

  lemma FailureClosable(c: Session)
    requires Completed(c, true)
    ensures Closable(c)
  {
    hide Ledgered;
    assert Ledgered(c.trace).sizes[..|Ledgered(c.trace).stored|] == Ledgered(c.trace).sizes;
  }

  lemma InjectionClosable(c: Session)
    requires Completed(c, false)
    ensures Closable(c.Noted(Injected))
  {
    hide Ledgered;
    LedgerNext(c, Injected);
    assert Ledgered(c.trace).sizes[..|Ledgered(c.trace).stored|] == Ledgered(c.trace).sizes;
  }

  lemma TimingBalances(c: Session, timing: ChunkTiming)
    requires Completed(c, false)
    requires var done := Ledgered(c.trace).completions; timing.size == done[|done| - 1]
    ensures Balanced(Timed(c, timing))
  {
    hide Ledgered;
    var b := Ledgered(c.trace);
    assert Sizes(b.stored) + [] == Sizes(b.stored) && b.acked + [] == b.acked;
  }

  function Timed(c: Session, timing: ChunkTiming): Session {
    c.(counters := WithTiming(c.counters, timing))
  }

  /** How a turn ends after CompleteCommand: as a failure, with a fault, or with a timing. */
  ghost predicate EndsAs(c: Session, t: Session, size: u64, failed: bool, running: bool) {
    if failed then !running && SameRecords(c, t)
    else if !running then SameRecords(c.Noted(Injected), t)
    else exists timing: ChunkTiming :: timing.size == size && SameRecords(Timed(c, timing), t)
  }

  lemma AcknowledgeEnds(w: World, s: Session, l: Loop, dev: nat, cmd: Command, hr: Hresult, fetched: nat, sinkUs: u64)
    ensures var (t, running) := Acknowledge(w, s, l, dev, cmd, hr, fetched, sinkUs);
      && EndsAs(s.Noted(Complete(dev, cmd, hr)), t, cmd.size, Failed(hr), running)
      && t.state == (if running then s.state else FAILED)
  {
    hide Add64, Sub64;
    var (t, running) := Acknowledge(w, s, l, dev, cmd, hr, fetched, sinkUs);
    if running {
      var timing := t.counters.timings[|t.counters.timings| - 1];
      var c := s.Noted(Complete(dev, cmd, hr));
      assert timing.size == cmd.size && SameRecords(Timed(c, timing), t);
    }
  }

  lemma AcknowledgeBooks(w: World, s: Session, l: Loop, dev: nat, cmd: Command, hr: Hresult, fetched: nat, sinkUs: u64)
    requires Books(s, [], if cmd.code == VDC_WRITE then [cmd] else []) && s.state == STREAMING
    ensures var (t, running) := Acknowledge(w, s, l, dev, cmd, hr, fetched, sinkUs);
      TurnBooks(t, running) && t.state == (if running then STREAMING else FAILED)
  {
    hide Ledgered, Books, Closable, Completed, Acknowledge, SameRecords;
    var (t, running) := Acknowledge(w, s, l, dev, cmd, hr, fetched, sinkUs);
    var c := s.Noted(Complete(dev, cmd, hr));
    AcknowledgeEnds(w, s, l, dev, cmd, hr, fetched, sinkUs);
    CompletedBooks(s, dev, cmd, hr);
    LedgerNext(s, Complete(dev, cmd, hr));
    if Failed(hr) {
      FailureClosable(c);
      RecordsCarry(c, t, [], []);
    } else if running {
      var timing: ChunkTiming :| timing.size == cmd.size && SameRecords(Timed(c, timing), t);
      TimingBalances(c, timing);
      RecordsCarry(Timed(c, timing), t, [], []);
      BooksClosable(t, []);
    } else {
      InjectionClosable(c);
      RecordsCarry(c.Noted(Injected), t, [], []);
    }
  }

  lemma RefusedBooks(w: World, s: Session, hr: Hresult, gcEnd: u64)
    requires Balanced(s) && s.state == STREAMING
    ensures TurnBooks(Refused(w, s, hr, gcEnd).0, Refused(w, s, hr, gcEnd).1)
  {
    hide Ledgered;
    hide Books;
    hide Closable;
    hide Flushed;
    var (t, running) := Refused(w, s, hr, gcEnd);
    if t.state == FLUSHING {
      RecordsCarry(s, s.(state := FLUSHING), [], []);
      SinkFlushCarries(w, s.(state := FLUSHING));
      FlushEmpties(w, s.sink);
    } else if t.trace == s.trace {
      RecordsCarry(s, t, [], []);
    } else {
      NeutralCarries(s, StallWarning(gcEnd));
      RecordsCarry(s.Noted(StallWarning(gcEnd)), t, [], []);
    }
    BooksClosable(t, []);
  }

  lemma HandleBooks(w: World, s: Session, l: Loop, dev: nat, cmd: Command, completion: Hresult, fetched: nat)
    requires Balanced(s) && s.state == STREAMING
    ensures var (t, running) := Handle(w, s, l, dev, cmd, completion, fetched); TurnBooks(t, running)
  {
    hide Ledgered;
    hide StoreChunk;
    hide Acknowledge;
    hide Books;
    hide Closable;
    var d := s.(ticks := s.ticks + 2);
    RecordsCarry(s, d, [], []);
    BooksClosable(d, []);
    if cmd.code == VDC_WRITE {
      StoreBooks(w, d, dev, cmd);
      var (t, running, sinkUs) := StoreChunk(w, d, dev, cmd);
      if running {
        AcknowledgeBooks(w, t, l, dev, cmd, completion, fetched, sinkUs);
      } else {
        BooksClosable(t, [cmd.size]);
      }
    } else if cmd.code != VDC_CLOSE {
      AcknowledgeBooks(w, d, l, dev, cmd, completion, fetched, 0);
    }
  }

  lemma {:induction false} TurnKeepsBooks(w: World, s: Session, l: Loop, dev: nat, reply: Reply)
    requires Balanced(s) && s.state == STREAMING
    ensures TurnBooks(Turn(w, s, l, dev, reply).0, Turn(w, s, l, dev, reply).1)
    ensures Turn(w, s, l, dev, reply).1 ==> Turn(w, s, l, dev, reply).0.state == STREAMING
  {
    hide Ledgered;
    hide Books;
    hide Handle;
    hide Refused;
    var g := Polled(w, s, dev, reply);
    PollBooks(w, s, dev, reply);
    if Failed(reply.hr) {
      RefusedBooks(w, g, reply.hr, w.clock(s.ticks + 1));
    } else if reply.cmd.Some? {
      HandleBooks(w, g, l, dev, reply.cmd.value, reply.completion, s.ticks);
    } else {
      BooksClosable(g, []);
    }
    TurnOutcome(w, s, l, dev, reply);
  }

  lemma PollBooks(w: World, s: Session, dev: nat, reply: Reply)
    requires Balanced(s)
    ensures Balanced(Polled(w, s, dev, reply)) && Polled(w, s, dev, reply).state == s.state
  {
    hide Books;
    NeutralCarries(s, GetCommand(dev, reply));
    RecordsCarry(s.Noted(GetCommand(dev, reply)), Polled(w, s, dev, reply), [], []);
  }

  lemma {:induction false} ServeKeepsBooks(w: World, s: Session, l: Loop, i: nat, script: seq<Reply>)
    requires Balanced(s) && s.state == STREAMING
    ensures TurnBooks(Serve(w, s, l, i, script).0, Serve(w, s, l, i, script).1)
    ensures Serve(w, s, l, i, script).1 ==> Serve(w, s, l, i, script).0.state == STREAMING
    decreases |script|
  {
    hide Turn;
    hide Books;
    hide Closable;
    if script == [] {
      BooksClosable(s, []);
    } else {
      TurnKeepsBooks(w, s, l, l.base + i, script[0]);
      var (t, running) := Turn(w, s, l, l.base + i, script[0]);
      if running {
        ServeKeepsBooks(w, t, l, Next(l, i), script[1..]);
      }
    }
  }
}
