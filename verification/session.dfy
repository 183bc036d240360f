/**
 A backup session as a value: every field of the client, every call it makes on its environment,
 and the public operations as functions on it.
 */
module Sessions {
  import opened Words
  import opened VdiProtocol
  import opened SinkModel
  import opened MetricsModel
  import opened FaultInjectors
  import opened BufferPools
  import opened Timers

  const BUFFER_POOL_SIZE: nat := 64
  const BUFFER_SIZE: nat := 65536
  const STALL_WARN_MS: nat := 60_000

  datatype SessionState = INIT | CONNECTED | STREAMING | FLUSHING | CLOSED | FAILED

  /** SQL Server's side of one turn: what GetCommand returns, and, should it come to that, what
      CompleteCommand answers. */
  datatype Reply = Reply(hr: Hresult, cmd: Option<Command>, completion: Hresult)

  /** What GetCommand reports once the script of replies has run out. */
  const GONE := Reply(VD_E_ABORT, None, S_OK)

  /** The clock and the file system; everything else the environment decides comes with a call. */
  datatype World = World(clock: Clock, os: Os)

  /** What the client does to its environment, in order. Devices are numbered as they are opened. */
  datatype Event =
    | CreateSet(hr: Hresult)
    | ConfigureSet(hr: Hresult)
    | GetConfiguration(hr: Hresult)
    | OpenDevice(dev: nat, hr: Hresult)
    | GetCommand(dev: nat, reply: Reply)
    | Counted(size: u32, lent: Option<nat>)
    | Store(dev: nat, cmd: Command, ok: bool)
    | Complete(dev: nat, cmd: Command, hr: Hresult)
    | Injected
    | StallWarning(at: u64)
    | FlushSink
    | ReleaseDevice(dev: nat)
    | CloseSet
    | ReleaseSet

  datatype Session = Session(
    state: SessionState, hasSet: bool, closed: bool, deviceCount: int,
    sink: Sink, counters: Counters, free: seq<nat>, injector: Injector,
    lastCommandUs: u64, lastBytesTotal: u64, lastStallWarnUs: u64,
    activeBuffers: u64, maxActiveBuffers: u64,
    ticks: nat, devicesOpened: nat, trace: seq<Event>)
  {
    function Noted(e: Event): Session {
      this.(trace := trace + [e])
    }

    function Fail(): Session {
      this.(state := FAILED)
    }
  }

  function Fresh(sink: Sink): Session {
    Session(INIT, false, false, 0, sink, ZERO, Upto(BUFFER_POOL_SIZE), IDLE, 0, 0, 0, 0, 0, 0, 0, [])
  }

  function SinkFlushed(w: World, s: Session): Session {
    s.(sink := Flushed(s.sink, w.os)).Noted(FlushSink)
  }

  // ----- one turn of the command loop

  /** The loop's fixed data: its start time, and which devices it serves. */
  datatype Loop = Loop(startUs: u64, base: nat, devices: nat)

  function CheckStall(s: Session, nowUs: u64): Session {
    if s.lastStallWarnUs == 0 then s.(lastStallWarnUs := nowUs)
    else if Sub64(nowUs, s.lastStallWarnUs) < STALL_WARN_MS * 1000 then s
    else if s.counters.totalBytes == s.lastBytesTotal
    then s.(lastStallWarnUs := nowUs).Noted(StallWarning(nowUs))
    else s.(lastBytesTotal := s.counters.totalBytes, lastStallWarnUs := nowUs)
  }

  /** GetCommand failed. */
  function Refused(w: World, s: Session, hr: Hresult, gcEnd: u64): (Session, bool) {
    if hr == VD_E_CLOSE || hr == VD_E_EOF then (SinkFlushed(w, s.(state := FLUSHING)), false)
    else if hr == VD_E_TIMEOUT then (CheckStall(s, gcEnd), true)
    else (s.Fail(), false)
  }

  /** The buffer pool simulation: a buffer is borrowed, if there is one, and returned at once. */
  function PoolRound(s: Session): Session {
    if s.free == [] then s.(counters := WithAcquire(s.counters, false))
    else
      var cur := Add64(s.activeBuffers, 1);
      s.(counters := WithRelease(WithAcquire(s.counters, true)),
         free := s.free[1..] + [s.free[0]],
         maxActiveBuffers := if cur > s.maxActiveBuffers then cur else s.maxActiveBuffers,
         activeBuffers := Sub64(cur, 1))
  }

  /** The buffer the pool lends next. */
  function Lent(s: Session): Option<nat> {
    if s.free == [] then None else Some(s.free[0])
  }

  /** The chunk is counted and the pool used, before anything about the command is checked. */
  function CountChunk(s: Session, size: u32): Session {
    var c := s.(counters := WithBytes(WithChunkSize(s.counters, size), size));
    PoolRound(c).Noted(Counted(size, Lent(s)))
  }

  /** Stage 3: the new session, whether the turn goes on, and the time spent in the sink. */
  function StoreChunk(w: World, s: Session, dev: nat, cmd: Command): (Session, bool, u64) {
    StoreCounted(w, CountChunk(s, cmd.size), dev, cmd)
  }

  function StoreCounted(w: World, c: Session, dev: nat, cmd: Command): (Session, bool, u64) {
    if !ValidateWriteCommand(Some(cmd)) then (c.Fail(), false, 0)
    else if !c.sink.handle then (c.Fail(), false, 0)
    else
      var (sink, ok) := Written(c.sink, w.os, Payload(cmd));
      var d := c.(sink := sink).Noted(Store(dev, cmd, ok));
      if !ok then (d.(ticks := c.ticks + 1).Fail(), false, 0)
      else (d.(ticks := c.ticks + 2, lastBytesTotal := c.counters.totalBytes), true,
            Sub64(w.clock(c.ticks + 1), w.clock(c.ticks)))
  }

  /** The durations of one turn, as the loop adds them up. */
  function MakeTiming(size: u64, gcUs: u64, dispatchUs: u64, sinkUs: u64, ccUs: u64, timestampUs: u64): ChunkTiming {
    ChunkTiming(size, gcUs, dispatchUs, sinkUs, ccUs, Add64(Add64(Add64(gcUs, dispatchUs), sinkUs), ccUs), timestampUs)
  }

  /** After a successful CompleteCommand: the fault hook, then the timing. */
  function Concluded(c: Session, timing: ChunkTiming): (Session, bool) {
    var (injector, fires) := ChunkCompleted(c.injector);
    var d := c.(injector := injector);
    if fires then (d.Fail().Noted(Injected), false)
    else (d.(counters := WithTiming(d.counters, timing)), true)
  }

  /** Stage 4 and what follows it. `fetched` is the clock position of this turn's first reading. */
  function Acknowledge(w: World, s: Session, l: Loop, dev: nat, cmd: Command, hr: Hresult, fetched: nat, sinkUs: u64)
    : (Session, bool)
  {
    var c := s.(ticks := s.ticks + 2).Noted(Complete(dev, cmd, hr));
    if Failed(hr) then (c.Fail(), false)
    else Concluded(c, MakeTiming(cmd.size,
      Sub64(w.clock(fetched + 1), w.clock(fetched)), Sub64(w.clock(fetched + 3), w.clock(fetched + 2)),
      sinkUs, Sub64(w.clock(s.ticks + 1), w.clock(s.ticks)), Sub64(w.clock(fetched), l.startUs)))
  }

  /** A command was fetched: stages 2 to 4. */
  function Handle(w: World, s: Session, l: Loop, dev: nat, cmd: Command, completion: Hresult, fetched: nat)
    : (Session, bool)
  {
    var d := s.(ticks := s.ticks + 2);
    var (result, code) := DispatchCommand(Some(cmd));
    match result
    case DispatchFailed => (d.Fail(), false)
    case CloseRequest => (d, false)
    case Continue =>
      var (t, running, sinkUs) := if code == VDC_WRITE then StoreChunk(w, d, dev, cmd) else (d, true, 0);
      if !running then (t, false) else Acknowledge(w, t, l, dev, cmd, completion, fetched, sinkUs)
  }

  /** GetCommand has returned, between its two clock readings. */
  function Polled(w: World, s: Session, dev: nat, reply: Reply): Session {
    s.(ticks := s.ticks + 2, lastCommandUs := w.clock(s.ticks + 1)).Noted(GetCommand(dev, reply))
  }

  /** One turn for one device: the session after it, and whether the loop keeps running. */
  function Turn(w: World, s: Session, l: Loop, dev: nat, reply: Reply): (Session, bool) {
    var g := Polled(w, s, dev, reply);
    if Failed(reply.hr) then Refused(w, g, reply.hr, w.clock(s.ticks + 1))
    else if reply.cmd.None? then (g, true)
    else Handle(w, g, l, dev, reply.cmd.value, reply.completion, s.ticks)
  }

  function Next(l: Loop, i: nat): nat {
    if i + 1 >= l.devices then 0 else i + 1
  }

  /** The loop over a script of replies, starting with device i; the flag says whether it is still
      running when the script ends. */
  function Serve(w: World, s: Session, l: Loop, i: nat, script: seq<Reply>): (Session, bool)
    decreases |script|
  {
    if script == [] then (s, true)
    else
      var (t, running) := Turn(w, s, l, l.base + i, script[0]);
      if !running then (t, false) else Serve(w, t, l, Next(l, i), script[1..])
  }

  // ----- the public operations

  function Connected(s: Session, comReady: bool, createHr: Hresult, configHr: Hresult, count: int): (Session, bool) {
    if s.state != INIT then (s, false)
    else
      var c := s.(deviceCount := count);
      if !comReady then (c.Fail(), false)
      else if Failed(createHr) then (c.Noted(CreateSet(createHr)).Fail(), false)
      else
        var d := c.Noted(CreateSet(createHr)).Noted(ConfigureSet(configHr));
        if Failed(configHr) then (d.Noted(ReleaseSet).(hasSet := false).Fail(), false)
        else (d.(hasSet := true, state := CONNECTED), true)
  }

  function Attached(s: Session, configurationHr: Hresult): (Session, bool) {
    if s.state != CONNECTED then (s, false)
    else if !s.hasSet then (s.Fail(), false)
    else
      var c := s.Noted(GetConfiguration(configurationHr));
      if Failed(configurationHr) then (c.Fail(), false) else (c.(state := STREAMING), true)
  }

  function Shut(w: World, s: Session): Session {
    if s.closed then s
    else
      var f := if s.state == STREAMING || s.state == FLUSHING then SinkFlushed(w, s) else s;
      var r := if f.hasSet then f.Noted(CloseSet).Noted(ReleaseSet).(hasSet := false) else f;
      r.(closed := true, state := CLOSED)
  }

  function DeviceTotal(count: int): nat {
    if count > 0 then count else 1
  }

  /** What the k-th OpenDevice of a run answers. */
  function OpenAnswer(opens: seq<Hresult>, k: nat): Hresult {
    if k < |opens| then opens[k] else S_OK
  }

  function OpenedOne(p: Session, hr: Hresult): (Session, bool) {
    var q := p.Noted(OpenDevice(p.devicesOpened, hr));
    if Failed(hr) then (q.Fail(), false) else (q.(devicesOpened := p.devicesOpened + 1), true)
  }

  /** The first k OpenDevice calls, stopping at a failure. */
  function OpenedUpTo(s: Session, opens: seq<Hresult>, k: nat): (Session, bool) {
    if k == 0 then (s, true)
    else
      var (p, ok) := OpenedUpTo(s, opens, k - 1);
      if !ok then (p, false) else OpenedOne(p, OpenAnswer(opens, k - 1))
  }

  function ReleasedUpTo(s: Session, base: nat, k: nat): Session {
    if k == 0 then s else ReleasedUpTo(s, base, k - 1).Noted(ReleaseDevice(base + k - 1))
  }

  /** The loop's own initialisation. */
  function LoopBegun(w: World, s: Session): Session {
    var start := w.clock(s.ticks);
    s.(ticks := s.ticks + 1, lastCommandUs := start, lastBytesTotal := 0, lastStallWarnUs := start)
  }

  function LoopOf(w: World, s: Session, ready: Session): Loop {
    Loop(w.clock(ready.ticks), s.devicesOpened, DeviceTotal(s.deviceCount))
  }

  /** After the loop: devices are released, and a drained session is closed. */
  function LoopEnded(w: World, s: Session, l: Loop): Session {
    var r := ReleasedUpTo(s, l.base, l.devices);
    if r.state == FLUSHING then Shut(w, r) else r
  }

  function Processed(w: World, s: Session, opens: seq<Hresult>, script: seq<Reply>): Session {
    if s.state != STREAMING || !s.hasSet then s
    else
      var (o, ok) := OpenedUpTo(s, opens, DeviceTotal(s.deviceCount));
      if !ok then o
      else
        var l := LoopOf(w, s, o);
        LoopEnded(w, Serve(w, LoopBegun(w, o), l, 0, script + [GONE]).0, l)
  }

  datatype Call =
    | Connect(comReady: bool, createHr: Hresult, configHr: Hresult, count: int)
    | OpenDevices(configurationHr: Hresult)
    | ProcessCommands(opens: seq<Hresult>, script: seq<Reply>)
    | Close
    | ArmFault(n: u64)
    | FailNext
    | ResetFault

  function Apply(w: World, s: Session, call: Call): Session {
    match call
    case Connect(com, create, config, count) => Connected(s, com, create, config, count).0
    case OpenDevices(hr) => Attached(s, hr).0
    case ProcessCommands(opens, script) => Processed(w, s, opens, script)
    case Close => Shut(w, s)
    case ArmFault(n) => s.(injector := Armed(s.injector, n))
    case FailNext => s.(injector := s.injector.(failNext := true))
    case ResetFault => s.(injector := IDLE)
  }

  function ApplyAll(w: World, s: Session, calls: seq<Call>): Session
    decreases |calls|
  {
    if calls == [] then s else ApplyAll(w, Apply(w, s, calls[0]), calls[1..])
  }

  /** The client's destructor, then its sink's. */
  function Destroyed(w: World, s: Session): Session {
    var c := if s.state != CLOSED && s.state != INIT then Shut(w, s) else s;
    c.(sink := Flushed(c.sink, w.os))
  }

  function Lifetime(w: World, sink: Sink, calls: seq<Call>): Session {
    Destroyed(w, ApplyAll(w, Fresh(sink), calls))
  }

  /** A sink just constructed, whatever the file system answered. */
  predicate NewSink(sink: Sink) {
    sink.Valid() && sink.buffered == [] && sink.log == []
  }
}
