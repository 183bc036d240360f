/** Concrete runs, each from a fresh client through its public calls, at which something the
    documentation suggests does not hold. */
module Witnesses {
  import opened Words
  import opened VdiProtocol
  import opened SinkModel
  import opened MetricsModel
  import opened Sessions
  import opened ProtocolRules
  import opened LifetimeRules
  import opened Ledgers

  const WRITE_CMD: Command := RawCommand(VDC_WRITE, 1, 0, Some([7]))
  const FLUSH_CMD: Command := RawCommand(VDC_FLUSH, 0, 0, None)
  const CLOSE_CMD: Command := RawCommand(VDC_CLOSE, 0, 0, None)

  const ONE_BYTE: Reply := Reply(S_OK, Some(WRITE_CMD), S_OK)
  const FLUSH_IT: Reply := Reply(S_OK, Some(FLUSH_CMD), S_OK)
  const CLOSE_IT: Reply := Reply(S_OK, Some(CLOSE_CMD), S_OK)
  const TIMEOUT: Reply := Reply(VD_E_TIMEOUT, None, S_OK)
  const END: Reply := Reply(VD_E_CLOSE, None, S_OK)

  const NEW_SINK: Sink := Sink(true, true, 1_048_576, [], [])

  /** A client that connected, opened its one device's set and ran the loop on this script. */
  function RunCalls(script: seq<Reply>): seq<Call> {
    [Connect(true, S_OK, S_OK, 1), OpenDevices(S_OK), ProcessCommands([], script)]
  }

  const SETUP: seq<Event> := [CreateSet(S_OK), ConfigureSet(S_OK), GetConfiguration(S_OK)]

  /** The session as the loop of the run finds it, its device just opened. */
  function Begun(w: World): Session {
    LoopBegun(w, Fresh(NEW_SINK).(
      state := STREAMING, hasSet := true, deviceCount := 1, devicesOpened := 1,
      trace := SETUP + [OpenDevice(0, S_OK)]))
  }

  function OneDevice(w: World): Loop {
    Loop(w.clock(0), 0, 1)
  }

  /** The run is the loop from there on, with its ending. */
  lemma RunIs(w: World, script: seq<Reply>)
    ensures ApplyAll(w, Fresh(NEW_SINK), RunCalls(script))
         == LoopEnded(w, Serve(w, Begun(w), OneDevice(w), 0, script + [GONE]).0, OneDevice(w))
  {
    hide Serve, LoopEnded;
    var a := Connected(Fresh(NEW_SINK), true, S_OK, S_OK, 1).0;
    var b := Attached(a, S_OK).0;
    assert b.trace == SETUP;
    var calls := RunCalls(script);
    assert calls[1..] == [OpenDevices(S_OK), ProcessCommands([], script)];
    assert calls[1..][1..] == [ProcessCommands([], script)];
    assert calls[1..][1..][1..] == [];
    assert ApplyAll(w, Fresh(NEW_SINK), calls) == ApplyAll(w, a, calls[1..]) == ApplyAll(w, b, calls[1..][1..]);
    assert ApplyAll(w, b, calls[1..][1..]) == Processed(w, b, [], script);
    var o := OpenedUpTo(b, [], 1).0;
    assert OpenedUpTo(b, [], 0) == (b, true);
    assert LoopBegun(w, o) == Begun(w);
  }

  /** A run on two replies, the first of which keeps the loop going. */
  lemma RunOfTwo(w: World, r1: Reply, r2: Reply)
    requires Turn(w, Begun(w), OneDevice(w), 0, r1).1
    ensures var l := OneDevice(w);
      var t := Turn(w, Begun(w), l, 0, r1).0;
      var (u, running) := Turn(w, t, l, 0, r2);
      var v := if running then Turn(w, u, l, 0, GONE).0 else u;
      ApplyAll(w, Fresh(NEW_SINK), RunCalls([r1, r2])) == LoopEnded(w, v, l)
  {
    hide Turn, LoopEnded, ApplyAll, Serve;
    RunIs(w, [r1, r2]);
    var l := OneDevice(w);
    var whole := [r1, r2] + [GONE];
    assert whole[1..] == [r2] + [GONE] && whole[1..][1..] == [GONE] && whole[1..][1..][1..] == [];
    var t := Turn(w, Begun(w), l, 0, r1).0;
    ServeOne(w, Begun(w), l, 0, whole);
    ServeOne(w, t, l, 0, whole[1..]);
    var u := Turn(w, t, l, 0, r2).0;
    ServeOne(w, u, l, 0, whole[1..][1..]);
    ServeNothing(w, Turn(w, u, l, 0, GONE).0, l, 0);
  }

  /** One microsecond at the start, a minute when the chunk is served, then one microsecond more. */
  function LateClock(n: nat): u64 {
    if n == 0 then 1 else if n <= 8 then 60_000_000 else 60_000_001
  }

  // ----- the first chunk of a run

  const OPENED: seq<Event> := SETUP + [OpenDevice(0, S_OK)]

  /** The trace up to the first chunk, fetched, counted, stored and acknowledged. */
  function Served(): seq<Event> {
    OPENED + [GetCommand(0, ONE_BYTE)] + [Counted(1, Some(0))] + [Store(0, WRITE_CMD, true)]
      + [Complete(0, WRITE_CMD, S_OK)]
  }

  lemma FirstChunk(w: World)
    ensures var (t, running) := Turn(w, Begun(w), OneDevice(w), 0, ONE_BYTE);
      && running && t.trace == Served() && t.ticks == 9
      && t.sink == NEW_SINK.(buffered := [7])
      && t.state == STREAMING && t.hasSet && !t.closed
      && t.injector.failAfter == 0
      && t.lastStallWarnUs == w.clock(0) && t.lastBytesTotal == t.counters.totalBytes == 1
  {
    assert Payload(WRITE_CMD) == [7];
  }

  /** Its books: the chunk is acknowledged, the only command handed out, and completed. */
  lemma FirstChunkBooks()
    ensures Ledgered(Served()).acked == [WRITE_CMD]
    ensures Fetches(Served()) == [(0, WRITE_CMD)] && Completions(Served()) == [(0, WRITE_CMD)]
  {
    hide Ledgered, Fetches, Completions;
    PlainIsBlank(OPENED);
    var a := OPENED + [GetCommand(0, ONE_BYTE)];
    var b := a + [Counted(1, Some(0))];
    var c := b + [Store(0, WRITE_CMD, true)];
    Adds(OPENED, GetCommand(0, ONE_BYTE));
    Adds(a, Counted(1, Some(0)));
    Adds(b, Store(0, WRITE_CMD, true));
    Adds(c, Complete(0, WRITE_CMD, S_OK));
  }

  lemma Adds(trace: seq<Event>, e: Event)
    ensures Ledgered(trace + [e]) == Entered(Ledgered(trace), e)
    ensures Fetches(trace + [e]) == Fetches(trace) + FetchOf(e)
    ensures Completions(trace + [e]) == Completions(trace) + CompletionOf(e)
  {
    assert (trace + [e])[..|trace|] == trace;
  }

  /** Nothing but events that neither hand out nor handle a command. */
  predicate Plain(trace: seq<Event>) {
    forall k :: 0 <= k < |trace| ==> Neutral(trace[k]) && !trace[k].GetCommand?
  }

  lemma {:induction false} PlainIsBlank(trace: seq<Event>)
    requires Plain(trace)
    ensures Ledgered(trace) == BLANK && Fetches(trace) == [] && Completions(trace) == []
  {
    if trace != [] {
      assert Neutral(trace[|trace| - 1]);
      PlainIsBlank(trace[..|trace| - 1]);
    }
  }

  // ----- the witnesses

  /** "No byte progress for 60 seconds" is not what a stall warning says: this run stores and
      acknowledges a chunk a microsecond before one. */
  lemma {:induction false} WarningDespiteProgress(os: Os)
    ensures ApplyAll(World(LateClock, os), Fresh(NEW_SINK), RunCalls([ONE_BYTE, TIMEOUT])).trace
         == Served() + [GetCommand(0, TIMEOUT)] + [StallWarning(60_000_001)]
            + [GetCommand(0, GONE)] + [ReleaseDevice(0)]
    ensures LateClock(8) + 1 == 60_000_001
  {
    hide Turn, LoopEnded;
    var w := World(LateClock, os);
    FirstChunk(w);
    RunOfTwo(w, ONE_BYTE, TIMEOUT);
    var t := Turn(w, Begun(w), OneDevice(w), 0, ONE_BYTE).0;
    hide Served, Begun, ApplyAll;
    TimeoutAt(w, t);
    var u := Turn(w, t, OneDevice(w), 0, TIMEOUT).0;
    GoneAfter(w, u);
  }

  lemma TimeoutAt(w: World, t: Session)
    requires w.clock == LateClock && t.ticks == 9 && t.lastStallWarnUs == 1
    requires t.lastBytesTotal == t.counters.totalBytes
    ensures var (u, running) := Turn(w, t, OneDevice(w), 0, TIMEOUT);
      && running && u.trace == t.trace + [GetCommand(0, TIMEOUT)] + [StallWarning(60_000_001)]
      && u.state == t.state && u.sink == t.sink
  {
  }

  /** A run that is still going when the script ends fails, and its device is released. */
  lemma GoneAfter(w: World, u: Session)
    ensures var e := LoopEnded(w, Turn(w, u, OneDevice(w), 0, GONE).0, OneDevice(w));
      && e.trace == u.trace + [GetCommand(0, GONE)] + [ReleaseDevice(0)]
      && e.state == FAILED && e.sink == u.sink
  {
    var v := Turn(w, u, OneDevice(w), 0, GONE).0;
    assert ReleasedUpTo(v, 0, 0) == v;
  }

  /** A file system that accepts every call and stores nothing. */
  function Lossy(n: nat): WriteOutcome {
    WriteOutcome(true, 0)
  }

  /** A backup can end cleanly with its data missing: the server ends the session, the state is
      CLOSED, the one chunk is acknowledged, and the file is empty. */
  lemma {:induction false} CleanEndCanLoseData(clock: nat -> u64)
    ensures var t := ApplyAll(World(clock, Lossy), Fresh(NEW_SINK), RunCalls([ONE_BYTE, END]));
      && t.state == CLOSED
      && Ledgered(t.trace).acked == [WRITE_CMD]
      && t.sink.buffered == [] && t.sink.Disk() == []
  {
    hide Turn, LoopEnded;
    var w := World(clock, Lossy);
    FirstChunk(w);
    FirstChunkBooks();
    RunOfTwo(w, ONE_BYTE, END);
    var t := Turn(w, Begun(w), OneDevice(w), 0, ONE_BYTE).0;
    hide Served, Begun, ApplyAll;
    EndAfter(w, t);
  }

  lemma EndAfter(w: World, t: Session)
    requires w.os == Lossy && t.sink == NEW_SINK.(buffered := [7]) && t.hasSet && !t.closed
    ensures var (u, running) := Turn(w, t, OneDevice(w), 0, END);
      var e := LoopEnded(w, u, OneDevice(w));
      && !running && e.state == CLOSED
      && e.sink.buffered == [] && e.sink.Disk() == []
      && Ledgered(e.trace).acked == Ledgered(t.trace).acked
  {
    hide Ledgered, Fetches, Completions;
    var u := Turn(w, t, OneDevice(w), 0, END).0;
    assert ReleasedUpTo(u, 0, 0) == u;
    var r := ReleasedUpTo(u, 0, 1);
    var f := SinkFlushed(w, r);
    Adds(t.trace, GetCommand(0, END));
    Adds(t.trace + [GetCommand(0, END)], FlushSink);
    Adds(u.trace, ReleaseDevice(0));
    Adds(r.trace, FlushSink);
    Adds(f.trace, CloseSet);
    Adds(f.trace + [CloseSet], ReleaseSet);
    var call := OsWrite(Flush, [7], 1, WriteOutcome(true, 0));
    assert u.sink.log == [call];
    assert DiskOf([call][..0]) == [];
  }

  function FlushTrace(): seq<Event> {
    Served() + [GetCommand(0, FLUSH_IT)] + [Complete(0, FLUSH_CMD, S_OK)] + [GetCommand(0, GONE)] + [ReleaseDevice(0)]
  }

  lemma FlushBooks()
    ensures Ledgered(FlushTrace()).acked == [WRITE_CMD]
    ensures Completions(FlushTrace()) == [(0, WRITE_CMD), (0, FLUSH_CMD)]
  {
    hide Ledgered, Fetches, Completions, Served;
    FirstChunkBooks();
    var a := Served() + [GetCommand(0, FLUSH_IT)];
    var b := a + [Complete(0, FLUSH_CMD, S_OK)];
    Adds(Served(), GetCommand(0, FLUSH_IT));
    Adds(a, Complete(0, FLUSH_CMD, S_OK));
    Adds(b, GetCommand(0, GONE));
    Adds(b + [GetCommand(0, GONE)], ReleaseDevice(0));
  }

  /** VDC_Flush promises durability and gives none: here every WriteFile would write in full, one is
      completed after a chunk, and the acknowledged chunk is not on disk. */
  lemma {:induction false} FlushLeavesDataOffDisk(w: World)
    ensures var t := ApplyAll(w, Fresh(NEW_SINK), RunCalls([ONE_BYTE, FLUSH_IT]));
      && Ledgered(t.trace).acked == [WRITE_CMD]
      && Completions(t.trace) == [(0, WRITE_CMD), (0, FLUSH_CMD)]
      && AllFull(t.sink.log) && t.sink.Disk() == []
  {
    hide Turn, LoopEnded, Served, Begun, ApplyAll, Ledgered, Completions;
    FirstChunk(w);
    FlushBooks();
    RunOfTwo(w, ONE_BYTE, FLUSH_IT);
    var t := Turn(w, Begun(w), OneDevice(w), 0, ONE_BYTE).0;
    FlushAfter(w, t);
    GoneAfter(w, Turn(w, t, OneDevice(w), 0, FLUSH_IT).0);
  }

  lemma FlushAfter(w: World, t: Session)
    requires t.injector.failAfter == 0
    ensures var (u, running) := Turn(w, t, OneDevice(w), 0, FLUSH_IT);
      && running && u.sink == t.sink
      && u.trace == t.trace + [GetCommand(0, FLUSH_IT)] + [Complete(0, FLUSH_CMD, S_OK)]
  {
  }

  function CloseTrace(): seq<Event> {
    Served() + [GetCommand(0, CLOSE_IT)] + [ReleaseDevice(0)]
  }

  lemma CloseBooks()
    ensures Fetches(CloseTrace()) == [(0, WRITE_CMD), (0, CLOSE_CMD)]
    ensures Completions(CloseTrace()) == [(0, WRITE_CMD)]
  {
    hide Ledgered, Fetches, Completions, Served;
    FirstChunkBooks();
    Adds(Served(), GetCommand(0, CLOSE_IT));
    Adds(Served() + [GetCommand(0, CLOSE_IT)], ReleaseDevice(0));
  }

  /** Not every command is completed: this run's last is a VDC_Close, and stays uncompleted. */
  lemma {:induction false} CloseStaysUncompleted(w: World)
    ensures var t := ApplyAll(w, Fresh(NEW_SINK), RunCalls([ONE_BYTE, CLOSE_IT]));
      && Fetches(t.trace) == [(0, WRITE_CMD), (0, CLOSE_CMD)]
      && Completions(t.trace) == [(0, WRITE_CMD)]
      && t.state == STREAMING
  {
    hide Turn, LoopEnded, Served, Begun, ApplyAll, Fetches, Completions;
    FirstChunk(w);
    CloseBooks();
    RunOfTwo(w, ONE_BYTE, CLOSE_IT);
    CloseAfter(w, Turn(w, Begun(w), OneDevice(w), 0, ONE_BYTE).0);
  }

  lemma CloseAfter(w: World, t: Session)
    requires t.state == STREAMING
    ensures var (u, running) := Turn(w, t, OneDevice(w), 0, CLOSE_IT);
      var e := LoopEnded(w, u, OneDevice(w));
      && !running && u.trace == t.trace + [GetCommand(0, CLOSE_IT)]
      && e.trace == u.trace + [ReleaseDevice(0)] && e.state == STREAMING
  {
    var u := Turn(w, t, OneDevice(w), 0, CLOSE_IT).0;
    assert ReleasedUpTo(u, 0, 0) == u;
  }

  /** A device can be left unreleased for good: of two devices the second fails to open, and the whole
      lifetime, destruction included, never releases the first. */
  lemma {:induction false} FirstDeviceIsNeverReleased(w: World)
    ensures Lifetime(w, NEW_SINK, [Connect(true, S_OK, S_OK, 2), OpenDevices(S_OK),
                                   ProcessCommands([S_OK, VD_E_ABORT], [])]).trace
         == SETUP + [OpenDevice(0, S_OK)] + [OpenDevice(1, VD_E_ABORT)] + [CloseSet] + [ReleaseSet]
  {
    var opens := [S_OK, VD_E_ABORT];
    var calls := [Connect(true, S_OK, S_OK, 2), OpenDevices(S_OK), ProcessCommands(opens, [])];
    var a := Connected(Fresh(NEW_SINK), true, S_OK, S_OK, 2).0;
    var b := Attached(a, S_OK).0;
    assert b.trace == SETUP;
    assert calls[1..] == [OpenDevices(S_OK), ProcessCommands(opens, [])];
    assert calls[1..][1..] == [ProcessCommands(opens, [])];
    assert calls[1..][1..][1..] == [];
    assert ApplyAll(w, Fresh(NEW_SINK), calls) == ApplyAll(w, a, calls[1..]) == ApplyAll(w, b, calls[1..][1..]);
    assert OpenedUpTo(b, opens, 0) == (b, true);
    var c := OpenedUpTo(b, opens, 1).0;
    assert c.trace == SETUP + [OpenDevice(0, S_OK)];
    var d := OpenedUpTo(b, opens, 2).0;
    assert d == OpenedOne(c, VD_E_ABORT).0;
    assert ApplyAll(w, b, calls[1..][1..]) == d;
  }
}
