/** End to end: what the server sent and saw acknowledged is what the file holds. */
module Delivery {
  import opened Words
  import opened VdiProtocol
  import opened SinkModel
  import opened SinkLaws
  import opened MetricsModel
  import opened Sessions
  import opened ProtocolRules
  import opened LifetimeRules
  import opened Ledgers

  // ----- the books between calls

  ghost predicate Settled(s: Session) {
    Closable(s) && (s.state != FAILED && s.state != CLOSED ==> Balanced(s))
  }

  lemma FreshSettled(sink: Sink)
    requires NewSink(sink)
    ensures Settled(Fresh(sink))
  {
    assert Ledgered([]) == BLANK;
    var s := Fresh(sink);
    assert Balanced(s);
    BooksClosable(s, []);
  }

  lemma {:induction false} OpeningKeepsBooks(s: Session, opens: seq<Hresult>, k: nat)
    requires Balanced(s)
    ensures Balanced(OpenedUpTo(s, opens, k).0) && Closable(OpenedUpTo(s, opens, k).0)
  {
    hide Books;
    hide Closable;
    if k > 0 {
      OpeningKeepsBooks(s, opens, k - 1);
      var p := OpenedUpTo(s, opens, k - 1).0;
      var e := OpenDevice(p.devicesOpened, OpenAnswer(opens, k - 1));
      NeutralCarries(p, e);
      RecordsCarry(p, OpenedUpTo(s, opens, k).0, [], []);
      RecordsCarry(p.Noted(e), OpenedUpTo(s, opens, k).0, [], []);
    }
    BooksClosable(OpenedUpTo(s, opens, k).0, []);
  }

  lemma {:induction false} ReleasingKeepsBooks(s: Session, base: nat, k: nat)
    ensures var r := ReleasedUpTo(s, base, k);
      && (Balanced(s) ==> Balanced(r)) && (Closable(s) ==> Closable(r))
      && r.sink == s.sink && r.state == s.state && r.closed == s.closed
  {
    hide Books;
    hide Closable;
    if k > 0 {
      ReleasingKeepsBooks(s, base, k - 1);
      NeutralCarries(ReleasedUpTo(s, base, k - 1), ReleaseDevice(base + k - 1));
    }
  }

  lemma ShutKeepsBooks(w: World, s: Session)
    ensures (Balanced(s) ==> Balanced(Shut(w, s))) && (Closable(s) ==> Closable(Shut(w, s)))
    ensures !s.closed && (s.state == STREAMING || s.state == FLUSHING) ==> Shut(w, s).sink.buffered == []
  {
    hide Books;
    hide Closable;
    hide Flushed;
    if !s.closed {
      SinkFlushCarries(w, s);
      FlushEmpties(w, s.sink);
      var f := if s.state == STREAMING || s.state == FLUSHING then SinkFlushed(w, s) else s;
      var g := f.Noted(CloseSet);
      NeutralCarries(f, CloseSet);
      NeutralCarries(g, ReleaseSet);
      RecordsCarry(g.Noted(ReleaseSet), Shut(w, s), [], []);
      RecordsCarry(f, Shut(w, s), [], []);
    }
  }

  lemma LoopKeepsBooks(w: World, s: Session, l: Loop)
    requires TurnBooks(s, false) && s.state in {STREAMING, FLUSHING, FAILED} && !s.closed
    ensures var e := LoopEnded(w, s, l);
      && Settled(e) && e.state == (if s.state == FLUSHING then CLOSED else s.state)
      && (e.state == CLOSED ==> Balanced(e) && e.sink.buffered == [])
  {
    hide Books;
    hide Closable;
    hide ReleasedUpTo;
    ReleasingKeepsBooks(s, l.base, l.devices);
    var r := ReleasedUpTo(s, l.base, l.devices);
    if r.state == FLUSHING {
      ShutKeepsBooks(w, r);
      hide Shut;
      ShutCloses(w, r);
    }
  }

  lemma ShutCloses(w: World, s: Session)
    requires !s.closed
    ensures Shut(w, s).state == CLOSED
  {
  }

  lemma ProcessedKeepsBooks(w: World, s: Session, opens: seq<Hresult>, script: seq<Reply>)
    requires AtRest(s) && Settled(s)
    ensures var p := Processed(w, s, opens, script);
      && Settled(p)
      && (s.state == STREAMING && p.state == CLOSED ==> Balanced(p) && p.sink.buffered == [])
  {
    hide Watched;
    hide Books;
    hide Closable;
    hide Serve;
    hide OpenedUpTo;
    hide LoopEnded;
    if s.state == STREAMING {
      var n := DeviceTotal(s.deviceCount);
      OpeningObeys(s, opens, n);
      OpeningKeepsBooks(s, opens, n);
      var (o, ok) := OpenedUpTo(s, opens, n);
      if ok {
        var l := LoopOf(w, s, o);
        var b := LoopBegun(w, o);
        RecordsCarry(o, b, [], []);
        ServeStops(w, b, l, 0, script, GONE);
        ServeKeepsBooks(w, b, l, 0, script + [GONE]);
        ServeObeys(w, b, l, 0, script + [GONE]);
        LoopKeepsBooks(w, Serve(w, b, l, 0, script + [GONE]).0, l);
      }
    }
  }

  lemma CallKeepsBooks(w: World, s: Session, call: Call)
    requires AtRest(s) && Settled(s)
    ensures Settled(Apply(w, s, call))
  {
    hide Watched;
    hide Books;
    hide Closable;
    hide Processed;
    hide Shut;
    var t := Apply(w, s, call);
    match call
    case Connect(com, create, config, count) =>
      ConnectRecords(s, com, create, config, count);
    case OpenDevices(hr) =>
      NeutralCarries(s, GetConfiguration(hr));
      RecordsCarry(s, t, [], []);
      RecordsCarry(s.Noted(GetConfiguration(hr)), t, [], []);
    case ProcessCommands(opens, script) => ProcessedKeepsBooks(w, s, opens, script);
    case Close =>
      ShutKeepsBooks(w, s);
      ShutObeys(w, s);
    case ArmFault(n) => RecordsCarry(s, t, [], []);
    case FailNext => RecordsCarry(s, t, [], []);
    case ResetFault => RecordsCarry(s, t, [], []);
  }

  lemma ConnectRecords(s: Session, com: bool, create: Hresult, config: Hresult, count: int)
    requires Settled(s)
    ensures Settled(Connected(s, com, create, config, count).0)
  {
    hide Books;
    hide Closable;
    var t := Connected(s, com, create, config, count).0;
    var a := s.Noted(CreateSet(create));
    var b := a.Noted(ConfigureSet(config));
    var c := b.Noted(ReleaseSet);
    NeutralCarries(s, CreateSet(create));
    NeutralCarries(a, ConfigureSet(config));
    NeutralCarries(b, ReleaseSet);
    RecordsCarry(s, t, [], []);
    RecordsCarry(a, t, [], []);
    RecordsCarry(b, t, [], []);
    RecordsCarry(c, t, [], []);
  }

  lemma {:induction false} CallsKeepBooks(w: World, s: Session, calls: seq<Call>)
    requires AtRest(s) && Settled(s)
    ensures AtRest(ApplyAll(w, s, calls)) && Settled(ApplyAll(w, s, calls))
    decreases |calls|
  {
    hide Apply;
    hide AtRest;
    hide Settled;
    if calls != [] {
      CallObeys(w, s, calls[0]);
      CallKeepsBooks(w, s, calls[0]);
      CallsKeepBooks(w, Apply(w, s, calls[0]), calls[1..]);
    }
  }

  lemma DestroyedKeepsBooks(w: World, s: Session)
    requires Settled(s)
    ensures Closable(Destroyed(w, s)) && Destroyed(w, s).sink.buffered == []
  {
    hide Books;
    hide Closable;
    hide Shut;
    hide Flushed;
    ShutKeepsBooks(w, s);
    var c := if s.state != CLOSED && s.state != INIT then Shut(w, s) else s;
    FlushCarries(w, c);
    FlushEmpties(w, c.sink);
  }

  lemma LifetimeCloses(w: World, sink: Sink, calls: seq<Call>)
    requires NewSink(sink)
    ensures Closable(Lifetime(w, sink, calls)) && Lifetime(w, sink, calls).sink.buffered == []
  {
    hide Settled, AtRest, ApplyAll, Destroyed, Closable;
    FreshSettled(sink);
    FreshAtRest(sink);
    CallsKeepBooks(w, Fresh(sink), calls);
    DestroyedKeepsBooks(w, ApplyAll(w, Fresh(sink), calls));
  }

  // ----- the main results

  /** End-to-end delivery. Whatever is called and whatever the server, clock and file system answer,
      once client and sink are destroyed the sink has passed on, in order, every acknowledged chunk
      followed by at most one whose acknowledgement failed. If every WriteFile made was full, that
      is the file, and the file is exactly the acknowledged data just when no acknowledgement failed. */
  lemma {:induction false} LifetimeDelivers(w: World, sink: Sink, calls: seq<Call>)
    requires NewSink(sink)
    ensures var s := Lifetime(w, sink, calls);
      var l := Ledgered(s.trace);
      && Committed(s.sink.log) == Joined(l.acked + l.unacked)
      && |l.unacked| <= 1
      && (AllFull(s.sink.log) ==>
           && s.sink.Disk() == Joined(l.acked + l.unacked)
           && (s.sink.Disk() == Joined(l.acked) <==> l.unacked == []))
  {
    hide Ledgered, Lifetime, Committed, Joined, CountersFit;
    LifetimeCloses(w, sink, calls);
    var s := Lifetime(w, sink, calls);
    var l := Ledgered(s.trace);
    assert Committed(s.sink.log) + [] == Committed(s.sink.log);
    if AllFull(s.sink.log) {
      FullLogIsOnDisk(s.sink.log);
      if l.unacked == [] {
        assert l.acked + [] == l.acked;
      } else {
        LastChunkShows(l.acked, l.unacked[0], l.stored);
      }
    }
  }

  lemma LastChunkShows(acked: seq<Command>, c: Command, stored: seq<Command>)
    requires stored == acked + [c] && AllValid(stored)
    ensures Joined(stored) != Joined(acked)
  {
    JoinedSnoc(acked, c);
    assert ValidateWriteCommand(Some(stored[|acked|]));
  }

  /** Byte conservation over a lifetime, for every file system: a stored byte is on disk or was
      dropped by a buffer flush. */
  lemma {:induction false} LifetimeConservesBytes(w: World, sink: Sink, calls: seq<Call>)
    requires NewSink(sink)
    ensures var s := Lifetime(w, sink, calls);
      |Joined(Ledgered(s.trace).stored)| == KeptBytesOnDisk(s.sink.log) + DroppedBytes(s.sink.log)
  {
    hide Ledgered, Lifetime, Committed, Joined, CountersFit;
    LifetimeCloses(w, sink, calls);
    var s := Lifetime(w, sink, calls);
    CommittedSplits(s.sink.log);
    assert Committed(s.sink.log) + [] == Committed(s.sink.log);
  }

  /** A backup the server ended with VD_E_CLOSE or VD_E_EOF: when the state becomes CLOSED every
      counted chunk was stored and acknowledged, nothing is buffered, the byte total is the length
      of the acknowledged data, and the file is that data exactly if each WriteFile whose answer was
      ignored took its whole block. */
  lemma {:induction false} CleanEndIsComplete(w: World, s: Session, opens: seq<Hresult>, script: seq<Reply>)
    requires AtRest(s) && Settled(s) && s.state == STREAMING
    requires Processed(w, s, opens, script).state == CLOSED
    ensures var t := Processed(w, s, opens, script);
      var l := Ledgered(t.trace);
      && l.stored == l.acked && l.unacked == [] && l.sizes == Sizes(l.acked)
      && t.sink.buffered == []
      && Committed(t.sink.log) == Joined(l.acked)
      && t.counters.totalBytes == Wrap(|Joined(l.acked)|)
      && |t.sink.Disk()| + DroppedBytes(t.sink.log) == |Joined(l.acked)|
      && (t.sink.Disk() == Joined(l.acked) <==> FlushesLanded(t.sink.log))
  {
    hide Ledgered, Processed, Committed, Joined, AtRest, DiskOf, DroppedBytes;
    ProcessedKeepsBooks(w, s, opens, script);
    var t := Processed(w, s, opens, script);
    var l := Ledgered(t.trace);
    assert Committed(t.sink.log) + [] == Committed(t.sink.log);
    assert l.acked + [] == l.acked;
    assert Sizes(l.stored) + [] == Sizes(l.stored);
    JoinedLength(l.acked);
    KeptLogSplits(t.sink.log);
    NothingDroppedIff(t.sink.log);
  }

  /** The same for a session whose loop was left by a VDC_Close command: it is still streaming, and
      an explicit close flushes the sink before it closes and releases the set. */
  lemma {:induction false} ExplicitCloseIsComplete(w: World, s: Session)
    requires AtRest(s) && Settled(s) && s.state == STREAMING
    ensures var t := Shut(w, s);
      var l := Ledgered(t.trace);
      && t.trace == s.trace + [FlushSink, CloseSet, ReleaseSet] && t.state == CLOSED
      && l.stored == l.acked && l.unacked == []
      && t.sink.buffered == []
      && Committed(t.sink.log) == Joined(l.acked)
      && t.counters.totalBytes == Wrap(|Joined(l.acked)|)
      && (t.sink.Disk() == Joined(l.acked) <==> FlushesLanded(t.sink.log))
  {
    hide Ledgered, Committed, Joined, Flushed, DiskOf, DroppedBytes, Watched;
    ShutKeepsBooks(w, s);
    var t := Shut(w, s);
    var l := Ledgered(t.trace);
    assert Committed(t.sink.log) + [] == Committed(t.sink.log);
    assert l.acked + [] == l.acked && Sizes(l.stored) + [] == Sizes(l.stored);
    JoinedLength(l.acked);
    KeptLogSplits(t.sink.log);
    NothingDroppedIff(t.sink.log);
  }

  /** A large chunk that is kept was taken whole, so only ignored answers can drop bytes. */
  lemma {:induction false} NothingDroppedIff(log: seq<OsWrite>)
    requires Uncut(log)
    ensures DroppedBytes(log) == 0 <==> FlushesLanded(log)
  {
    if log != [] {
      var past, e := log[..|log| - 1], log[|log| - 1];
      assert forall k :: 0 <= k < |past| ==> past[k] == log[k];
      assert e.asked == |e.block|;
      NothingDroppedIff(past);
    }
  }

  lemma {:induction false} KeptLogSplits(log: seq<OsWrite>)
    requires AllKept(log)
    ensures |DiskOf(log)| + DroppedBytes(log) == |Committed(log)|
    ensures DroppedBytes(log) == 0 ==> DiskOf(log) == Committed(log)
  {
    if log != [] {
      var past := log[..|log| - 1];
      assert log[|log| - 1].Kept();
      assert forall k :: 0 <= k < |past| ==> past[k] == log[k];
      KeptLogSplits(past);
    }
  }

  /** Nothing after that changes the file, the books or the trace, destruction included. */
  lemma {:induction false} ClosedIsFinal(w: World, s: Session, calls: seq<Call>)
    requires s.state == CLOSED && s.closed && s.sink.buffered == []
    ensures var t := Destroyed(w, ApplyAll(w, s, calls));
      t.sink == s.sink && t.trace == s.trace && t.counters == s.counters && t.state == CLOSED
    decreases |calls|
  {
    if calls != [] {
      var n := Apply(w, s, calls[0]);
      assert n.state == CLOSED && n.closed && n.sink == s.sink && n.trace == s.trace && n.counters == s.counters;
      ClosedIsFinal(w, n, calls[1..]);
    }
  }

  /** The sizes counted after the last stored chunk. */
  function Refusals(l: Ledger): seq<u64> {
    if |l.stored| <= |l.sizes| then l.sizes[|l.stored|..] else []
  }

  /** Only chunks of 1 byte to 1 GiB with a buffer behind them ever reach the sink. */
  lemma {:induction false} LifetimeStoresSaneChunks(w: World, sink: Sink, calls: seq<Call>, k: nat)
    requires NewSink(sink)
    requires k < |Ledgered(Lifetime(w, sink, calls).trace).stored|
    ensures var cmd := Ledgered(Lifetime(w, sink, calls).trace).stored[k];
      cmd.buffer.Some? && 1 <= |Payload(cmd)| == cmd.size <= 1024 * 1024 * 1024
  {
    hide Ledgered, Lifetime, Committed, Joined, CountersFit;
    LifetimeCloses(w, sink, calls);
    assert ValidateWriteCommand(Some(Ledgered(Lifetime(w, sink, calls).trace).stored[k]));
  }

  /** Byte accounts of every lifetime: both sums agree, and exceed the stored data by at most one
      chunk, counted and then refused. Of a refusal, a failed acknowledgement and an injected fault
      at most one occurs, and timings are the successful completions, less one exactly if a fault
      was injected. */
  lemma {:induction false} LifetimeTotals(w: World, sink: Sink, calls: seq<Call>)
    requires NewSink(sink)
    ensures var s := Lifetime(w, sink, calls);
      var l := Ledgered(s.trace);
      && l.sizes == Sizes(l.stored) + Refusals(l)
      && |Refusals(l)| + |l.unacked| + l.injected <= 1
      && s.counters.totalBytes == s.counters.sumChunks == Wrap(|Joined(l.stored)| + Sum(Refusals(l)))
      && |s.counters.timings| + l.injected == |l.completions|
      && TimingsMatch(s.counters.timings, l.completions)
  {
    hide Ledgered, Lifetime, Committed, Joined, PoolFits, Uncut, Sum;
    LifetimeCloses(w, sink, calls);
    var s := Lifetime(w, sink, calls);
    var l := Ledgered(s.trace);
    assert l.sizes == Sizes(l.stored) + Refusals(l);
    JoinedLength(l.stored);
    SumAppends(Sizes(l.stored), Refusals(l));
  }

  /** The two printed averages of every lifetime are the same number, and unless a 64-bit counter has
      wrapped it lies between the printed extremes. */
  lemma {:induction false} LifetimeAverages(w: World, sink: Sink, calls: seq<Call>)
    requires NewSink(sink)
    ensures var s := Lifetime(w, sink, calls);
      var sizes := Ledgered(s.trace).sizes;
      && (s.counters.chunkCount > 0 ==> AverageFromSum(s.counters) == AverageFromTotals(s.counters))
      && (sizes != [] && Sum(sizes) < TWO_64 && |sizes| < TWO_64 ==>
           && s.counters.chunkCount > 0
           && ShownMin(s.counters) <= AverageFromTotals(s.counters) <= s.counters.maxChunk)
  {
    hide Ledgered, Lifetime, Committed, Joined, PoolFits, DivideDown, Sum;
    LifetimeCloses(w, sink, calls);
    var s := Lifetime(w, sink, calls);
    AveragesAgree(s.counters, Ledgered(s.trace).sizes);
    if Ledgered(s.trace).sizes != [] && Sum(Ledgered(s.trace).sizes) < TWO_64 && |Ledgered(s.trace).sizes| < TWO_64 {
      AveragesAreSound(s.counters, Ledgered(s.trace).sizes);
    }
  }

  /** The pool never misses in any lifetime: acquires, hits, releases and chunks are the same
      number, the n-th chunk borrows buffer n mod 64, and at most one is out at a time. */
  lemma {:induction false} LifetimePool(w: World, sink: Sink, calls: seq<Call>)
    requires NewSink(sink)
    ensures var s := Lifetime(w, sink, calls);
      var l := Ledgered(s.trace);
      var c := s.counters;
      && c.acquires == c.hits == c.releases == c.chunkCount == Wrap(|l.sizes|) && c.misses == 0
      && s.activeBuffers == 0 && s.maxActiveBuffers <= 1
      && |l.lent| == |l.sizes|
      && (forall k :: 0 <= k < |l.lent| ==> l.lent[k] == Some(k % 64))
  {
    hide Ledgered, Lifetime, Committed, Joined;
    LifetimeCloses(w, sink, calls);
  }

  function WriteSizeOf(e: Event): seq<u64> {
    var f := FetchOf(e);
    if f != [] && f[0].1.code == VDC_WRITE then [f[0].1.size] else []
  }

  /** The sizes in all write commands handed out. */
  function WriteSizes(trace: seq<Event>): seq<u64> {
    if trace == [] then [] else WriteSizes(trace[..|trace| - 1]) + WriteSizeOf(trace[|trace| - 1])
  }

  /** The size of an outstanding write that is still to be counted. */
  function Uncounted(v: Watch): seq<u64> {
    if v.pending.Some? && v.pending.value.1.code == VDC_WRITE && v.handling == Fetched
    then [v.pending.value.1.size] else []
  }

  lemma CountStep(v: Watch, e: Event)
    requires Permitted(v, e)
    ensures (match e case Counted(size, _) => [size as u64] case _ => []) + Uncounted(Observe(v, e))
         == Uncounted(v) + WriteSizeOf(e)
  {
  }

  /** In a legal trace every write handed out is counted once, with its size and in order. */
  lemma {:induction false} LegalTracesCountWrites(trace: seq<Event>)
    requires Watched(trace).legal
    ensures Ledgered(trace).sizes + Uncounted(Watched(trace)) == WriteSizes(trace)
  {
    if trace != [] {
      hide Uncounted, WriteSizeOf, Observe, Permitted;
      var past := trace[..|trace| - 1];
      LegalWasLegal(trace);
      LegalTracesCountWrites(past);
      CountStep(Watched(past), trace[|trace| - 1]);
    }
  }

  lemma LegalWasLegal(trace: seq<Event>)
    requires trace != [] && Watched(trace).legal
    ensures Watched(trace[..|trace| - 1]).legal
    ensures Permitted(Watched(trace[..|trace| - 1]), trace[|trace| - 1])
  {
  }

  /** Over a lifetime the chunk sizes counted are exactly those of the write commands the server
      handed out: the byte total is their sum, refused chunks included. */
  lemma {:induction false} LifetimeCountsWrites(w: World, sink: Sink, calls: seq<Call>)
    requires NewSink(sink)
    ensures var s := Lifetime(w, sink, calls);
      && Ledgered(s.trace).sizes == WriteSizes(s.trace)
      && s.counters.totalBytes == Wrap(Sum(WriteSizes(s.trace)))
  {
    hide Ledgered, Lifetime, Watched, WriteSizes, PoolFits;
    LifetimeCloses(w, sink, calls);
    LifetimeKeepsRules(w, sink, calls);
    var s := Lifetime(w, sink, calls);
    LegalTracesCountWrites(s.trace);
    assert Ledgered(s.trace).sizes + [] == Ledgered(s.trace).sizes;
  }

  lemma {:induction false} WriteSizesFit(trace: seq<Event>)
    ensures forall k :: 0 <= k < |WriteSizes(trace)| ==> WriteSizes(trace)[k] < TWO_32
  {
    if trace != [] {
      WriteSizesFit(trace[..|trace| - 1]);
    }
  }

  /** The extremes a lifetime prints are the smallest and largest of the sizes handed out, or 0 if no
      write was. */
  lemma {:induction false} LifetimeExtremes(w: World, sink: Sink, calls: seq<Call>)
    requires NewSink(sink)
    ensures var s := Lifetime(w, sink, calls);
      var sizes := WriteSizes(s.trace);
      var lo, hi := ShownMin(s.counters), s.counters.maxChunk;
      && (forall k :: 0 <= k < |sizes| ==> lo <= sizes[k] <= hi)
      && (if sizes == [] then lo == hi == 0 else lo in sizes && hi in sizes)
  {
    hide Ledgered, Lifetime, Watched, WriteSizes, PoolFits, SinkFits, Sum;
    LifetimeCloses(w, sink, calls);
    LifetimeCountsWrites(w, sink, calls);
    WriteSizesFit(Lifetime(w, sink, calls).trace);
  }

  lemma {:induction false} SumAppends(a: seq<u64>, b: seq<u64>)
    ensures Sum(a + b) == Sum(a) + Sum(b)
  {
    if b == [] {
      assert a + b == a;
    } else {
      assert (a + b)[..|a + b| - 1] == a + b[..|b| - 1];
      SumAppends(a, b[..|b| - 1]);
    }
  }

  /** With every WriteFile so far full, at each turn start of a loop the disk holds a beginning of
      the acknowledged data and lags behind it by at most one buffer. */
  lemma {:induction false} DiskLagsAtMostABuffer(w: World, s: Session, l: Loop, i: nat, script: seq<Reply>)
    requires Balanced(s) && s.state == STREAMING && Serve(w, s, l, i, script).1
    ensures var t := Serve(w, s, l, i, script).0;
      var acked := Joined(Ledgered(t.trace).acked);
      AllFull(t.sink.log) ==> t.sink.Disk() <= acked && |acked| <= |t.sink.Disk()| + t.sink.capacity
  {
    hide Ledgered, Committed, Joined, DiskOf, Serve, CountersFit;
    ServeKeepsBooks(w, s, l, i, script);
    var t := Serve(w, s, l, i, script).0;
    var b := Ledgered(t.trace);
    assert b.acked + [] == b.acked;
    if AllFull(t.sink.log) {
      FullLogIsOnDisk(t.sink.log);
    }
  }

  // ----- a flush command is only acknowledged

  /** VDC_Flush does not reach the sink. After one is completed, with all WriteFile calls full so
      far, the acknowledged data is on disk exactly if nothing was buffered before it. */
  lemma {:induction false} FlushCommandLeavesBuffer(w: World, s: Session, l: Loop, dev: nat, reply: Reply)
    requires Balanced(s) && s.state == STREAMING && AllFull(s.sink.log)
    requires !Failed(reply.hr) && reply.cmd.Some? && reply.cmd.value.code == VDC_FLUSH
    ensures var t := Turn(w, s, l, dev, reply).0;
      && t.sink == s.sink
      && Ledgered(t.trace).acked == Ledgered(s.trace).acked
      && (t.sink.Disk() == Joined(Ledgered(t.trace).acked) <==> s.sink.buffered == [])
  {
    hide Ledgered, Committed, Joined, DiskOf, CountersFit, StoreChunk, MakeTiming;
    var cmd := reply.cmd.value;
    var g := Polled(w, s, dev, reply);
    var c := g.Noted(Complete(dev, cmd, reply.completion));
    LedgerNext(s, GetCommand(dev, reply));
    LedgerNext(g, Complete(dev, cmd, reply.completion));
    LedgerNext(c, Injected);
    FullLogIsOnDisk(s.sink.log);
    var b := Ledgered(s.trace);
    assert b.acked + [] == b.acked;
  }
}
