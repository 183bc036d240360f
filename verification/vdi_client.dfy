/** VdiClient: the session object, method by method, against the session as a value. */
module VdiClients {
  import opened Words
  import opened VdiProtocol
  import opened SinkModel
  import opened MetricsModel
  import opened Sessions
  import opened Timers
  import FileSinks
  import MetricsRecorder
  import BufferPools
  import FaultInjectors
  import LifetimeRules

  class VdiClient {
    const sink: FileSinks.FileSink
    const metrics: MetricsRecorder.Metrics
    const bufferPool: BufferPools.BufferPool
    const faultInjector: FaultInjectors.FaultInjector
    var state: SessionState
    var deviceSet: bool
    var devicesClosed: bool
    var deviceCount: int
    var lastCommandUs: u64
    var lastBytesTotal: u64
    var lastStallWarnUs: u64
    var activeBuffers: u64
    var maxActiveBuffers: u64
    /** How many device interfaces were handed out; the next one gets this number. */
    var devicesOpened: nat
    /** Every call made on the environment so far. */
    ghost var trace: seq<Event>

    ghost predicate Valid()
      reads this, sink, sink.file, sink.writeBuffer, bufferPool
    {
      && sink.Valid()
      && bufferPool.Valid()
    }

    ghost function Model(): Session
      reads this, sink, sink.file, sink.writeBuffer, metrics, metrics.timer, bufferPool, faultInjector
    {
      Session(state, deviceSet, devicesClosed, deviceCount,
        sink.Model(), metrics.Model(), bufferPool.freeIds, faultInjector.Model(),
        lastCommandUs, lastBytesTotal, lastStallWarnUs, activeBuffers, maxActiveBuffers,
        metrics.timer.taken, devicesOpened, trace)
    }

    ghost function Environment(): World {
      World(metrics.timer.clock, sink.file.outcomes)
    }

    constructor (sink: FileSinks.FileSink, timer: Timer)
      requires sink.Valid() && timer.taken == 0
      ensures Valid() && this.sink == sink && metrics.timer == timer
      ensures Model() == Fresh(sink.Model())
      ensures fresh(metrics) && fresh(bufferPool) && fresh(faultInjector)
    {
      this.sink := sink;
      metrics := new MetricsRecorder.Metrics(timer);
      bufferPool := new BufferPools.BufferPool(BUFFER_SIZE, BUFFER_POOL_SIZE);
      faultInjector := new FaultInjectors.FaultInjector();
      state, deviceSet, devicesClosed, deviceCount := INIT, false, false, 0;
      lastCommandUs, lastBytesTotal, lastStallWarnUs := 0, 0, 0;
      activeBuffers, maxActiveBuffers, devicesOpened := 0, 0, 0;
      trace := [];
    }

    // ----- connecting

    /** `comReady`, `createHr` and `configHr` are what the COM runtime, CoCreateInstance and
        CreateEx answer. */
    method Connect(deviceTotal: int, comReady: bool, createHr: Hresult, configHr: Hresult) returns (ok: bool)
      requires Valid()
      modifies this
      ensures Valid() && (Model(), ok) == Connected(old(Model()), comReady, createHr, configHr, deviceTotal)
    {
      hide FileSinks.FileSink.Model, MetricsRecorder.Metrics.Model, FaultInjectors.FaultInjector.Model;
      if state != INIT {
        return false;
      }
      deviceCount := deviceTotal;
      if !comReady {
        state := FAILED;
        return false;
      }
      trace := trace + [CreateSet(createHr)];
      if Failed(createHr) {
        state := FAILED;
        return false;
      }
      deviceSet := true;
      trace := trace + [ConfigureSet(configHr)];
      if Failed(configHr) {
        trace := trace + [ReleaseSet];
        deviceSet := false;
        state := FAILED;
        return false;
      }
      state := CONNECTED;
      return true;
    }

    method OpenDevices(configurationHr: Hresult) returns (ok: bool)
      requires Valid()
      modifies this
      ensures Valid() && (Model(), ok) == Attached(old(Model()), configurationHr)
    {
      if state != CONNECTED {
        return false;
      }
      if !deviceSet {
        state := FAILED;
        return false;
      }
      trace := trace + [GetConfiguration(configurationHr)];
      if Failed(configurationHr) {
        state := FAILED;
        return false;
      }
      state := STREAMING;
      return true;
    }

    // ----- closing

    method FlushTheSink()
      requires Valid()
      modifies this`trace, sink, sink.file
      ensures Valid() && Model() == SinkFlushed(Environment(), old(Model()))
    {
      hide Drained;
      sink.Flush();
      trace := trace + [FlushSink];
    }

    method Close()
      requires Valid()
      modifies this, sink, sink.file
      ensures Valid() && Model() == Shut(Environment(), old(Model()))
    {
      hide SinkFlushed, FileSinks.FileSink.Model, MetricsRecorder.Metrics.Model, FaultInjectors.FaultInjector.Model;
      if devicesClosed {
        return;
      }
      if state == STREAMING || state == FLUSHING {
        FlushTheSink();
      }
      if deviceSet {
        trace := trace + [CloseSet] + [ReleaseSet];
        deviceSet := false;
      }
      devicesClosed := true;
      state := CLOSED;
    }

    /** The destructor, and that of the sink it owns. */
    method Destroy()
      requires Valid()
      modifies this, sink, sink.file
      ensures Valid() && Model() == Destroyed(Environment(), old(Model()))
    {
      hide Shut, Drained;
      if state != CLOSED && state != INIT {
        Close();
      }
      sink.Destroy();
    }

    // ----- the fault injector, handed out to tests

    method ArmFault(n: u64)
      requires Valid()
      modifies faultInjector
      ensures Valid() && Model() == Apply(Environment(), old(Model()), Call.ArmFault(n))
    {
      faultInjector.SetFailAfterNChunks(n);
    }

    method FailNext()
      requires Valid()
      modifies faultInjector
      ensures Valid() && Model() == Apply(Environment(), old(Model()), Call.FailNext)
    {
      faultInjector.SetFailNextCommand();
    }

    method ResetFault()
      requires Valid()
      modifies faultInjector
      ensures Valid() && Model() == Apply(Environment(), old(Model()), Call.ResetFault)
    {
      faultInjector.Reset();
    }

    // ----- one turn of the loop

    method CheckStall(nowUs: u64)
      requires Valid()
      modifies this
      ensures Valid() && Model() == Sessions.CheckStall(old(Model()), nowUs)
    {
      if lastStallWarnUs == 0 {
        lastStallWarnUs := nowUs;
        return;
      }
      var elapsedUs := Sub64(nowUs, lastStallWarnUs);
      if elapsedUs < STALL_WARN_MS * 1000 {
        return;
      }
      var currentBytes := metrics.totalBytes;
      if currentBytes == lastBytesTotal {
        trace := trace + [StallWarning(nowUs)];
        lastStallWarnUs := nowUs;
      } else {
        lastBytesTotal := currentBytes;
        lastStallWarnUs := nowUs;
      }
    }

    method HandleRefusal(hr: Hresult, gcEnd: u64) returns (running: bool)
      requires Valid()
      modifies this, sink, sink.file
      ensures Valid() && (Model(), running) == Refused(Environment(), old(Model()), hr, gcEnd)
    {
      hide SinkFlushed, Sessions.CheckStall;
      if hr == VD_E_CLOSE {
        state := FLUSHING;
        FlushTheSink();
        return false;
      } else if hr == VD_E_EOF {
        state := FLUSHING;
        FlushTheSink();
        return false;
      } else if hr == VD_E_TIMEOUT {
        CheckStall(gcEnd);
        return true;
      }
      state := FAILED;
      return false;
    }

    method UseBufferPool()
      requires Valid()
      modifies this, metrics, bufferPool
      ensures Valid() && Model() == PoolRound(old(Model()))
    {
      hide WithAcquire, WithRelease;
      ghost var free := bufferPool.freeIds;
      var buffer := bufferPool.Acquire();
      metrics.RecordBufferAcquire(buffer != null);
      if buffer != null {
        activeBuffers := Add64(activeBuffers, 1);
        var cur := activeBuffers;
        if cur > maxActiveBuffers {
          maxActiveBuffers := cur;
        }
        ghost var id := bufferPool.Release(buffer);
        assert id == free[0];
        activeBuffers := Sub64(activeBuffers, 1);
        metrics.RecordBufferRelease();
      }
    }

    method CountChunk(size: u32)
      requires Valid()
      modifies this, metrics, bufferPool
      ensures Valid() && Model() == Sessions.CountChunk(old(Model()), size)
    {
      hide WithBytes, WithChunkSize, PoolRound;
      ghost var lent := Lent(Model());
      var minRetries: nat, maxRetries: nat := *, *;
      metrics.RecordChunkSize(size, minRetries, maxRetries);
      metrics.AddBytes(size);
      UseBufferPool();
      trace := trace + [Counted(size, lent)];
    }

    /** Stage 3 for a VDC_Write. */
    method StoreChunk(dev: nat, cmd: Command) returns (running: bool, sinkUs: u64)
      requires Valid()
      modifies this, sink, sink.file, sink.writeBuffer, metrics, metrics.timer, bufferPool
      ensures Valid()
      ensures (Model(), running, sinkUs) == Sessions.StoreChunk(Environment(), old(Model()), dev, cmd)
    {
      hide Sessions.CountChunk, Sessions.StoreCounted;
      CountChunk(cmd.size);
      running, sinkUs := StoreCounted(dev, cmd);
    }

    method StoreCounted(dev: nat, cmd: Command) returns (running: bool, sinkUs: u64)
      requires Valid()
      modifies this, sink, sink.file, sink.writeBuffer, metrics.timer
      ensures Valid()
      ensures (Model(), running, sinkUs) == Sessions.StoreCounted(Environment(), old(Model()), dev, cmd)
    {
      hide Written;
      if !ValidateWriteCommand(Some(cmd)) {
        state := FAILED;
        return false, 0;
      }
      if !sink.IsOpen() {
        state := FAILED;
        return false, 0;
      }
      var sinkStart := metrics.NowUs();
      var writeOk := sink.Write(cmd.buffer.value[..cmd.size]);
      trace := trace + [Store(dev, cmd, writeOk)];
      if !writeOk {
        state := FAILED;
        return false, 0;
      }
      var sinkEnd := metrics.NowUs();
      sinkUs := Sub64(sinkEnd, sinkStart);
      lastBytesTotal := metrics.totalBytes;
      return true, sinkUs;
    }

    /** Stage 4, the fault hook and the timing. */
    method Acknowledge(l: Loop, dev: nat, cmd: Command, hr: Hresult, ghost fetched: nat,
        gcStart: u64, gcUs: u64, dispatchUs: u64, sinkUs: u64)
      returns (running: bool)
      requires Valid()
      requires var c := metrics.timer.clock;
        && gcStart == c(fetched)
        && gcUs == Sub64(c(fetched + 1), gcStart)
        && dispatchUs == Sub64(c(fetched + 3), c(fetched + 2))
      modifies this, metrics, metrics.timer, faultInjector
      ensures Valid()
      ensures (Model(), running) == Sessions.Acknowledge(Environment(), old(Model()), l, dev, cmd, hr, fetched, sinkUs)
    {
      hide Concluded, MakeTiming;
      hide FileSinks.FileSink.Model, MetricsRecorder.Metrics.Model, FaultInjectors.FaultInjector.Model;
      var ccStart := metrics.NowUs();
      trace := trace + [Complete(dev, cmd, hr)];
      var ccEnd := metrics.NowUs();
      var ccUs := Sub64(ccEnd, ccStart);
      if Failed(hr) {
        state := FAILED;
        return false;
      }
      running := Conclude(cmd.size, gcUs, dispatchUs, sinkUs, ccUs, Sub64(gcStart, l.startUs));
    }

    method Conclude(size: u64, gcUs: u64, dispatchUs: u64, sinkUs: u64, ccUs: u64, timestampUs: u64)
      returns (running: bool)
      requires Valid()
      modifies this, metrics, faultInjector
      ensures Valid()
      ensures (Model(), running)
           == Concluded(old(Model()), MakeTiming(size, gcUs, dispatchUs, sinkUs, ccUs, timestampUs))
    {
      hide FaultInjectors.ChunkCompleted, FileSinks.FileSink.Model;
      var fires := faultInjector.OnChunkCompleted();
      if fires {
        state := FAILED;
        trace := trace + [Injected];
        return false;
      }
      var totalUs := Add64(Add64(Add64(gcUs, dispatchUs), sinkUs), ccUs);
      metrics.RecordChunkTiming(ChunkTiming(size, gcUs, dispatchUs, sinkUs, ccUs, totalUs, timestampUs));
      return true;
    }

    /** Stages 2 to 4 for a fetched command. */
    method HandleCommand(l: Loop, dev: nat, cmd: Command, completion: Hresult, ghost fetched: nat,
        gcStart: u64, gcUs: u64)
      returns (running: bool)
      requires Valid()
      requires var c := metrics.timer.clock;
        && metrics.timer.taken == fetched + 2 && gcStart == c(fetched) && gcUs == Sub64(c(fetched + 1), gcStart)
      modifies this, sink, sink.file, sink.writeBuffer, metrics, metrics.timer, bufferPool, faultInjector
      ensures Valid()
      ensures (Model(), running) == Handle(Environment(), old(Model()), l, dev, cmd, completion, fetched)
    {
      hide Sessions.StoreChunk, Sessions.Acknowledge, DispatchCommand;
      hide FileSinks.FileSink.Model, MetricsRecorder.Metrics.Model, FaultInjectors.FaultInjector.Model;
      var dispatchStart := metrics.NowUs();
      var (result, code) := DispatchCommand(Some(cmd));
      var dispatchEnd := metrics.NowUs();
      var dispatchUs := Sub64(dispatchEnd, dispatchStart);
      if result == DispatchFailed {
        state := FAILED;
        return false;
      }
      if result == CloseRequest {
        return false;
      }
      var sinkUs: u64 := 0;
      if code == VDC_WRITE {
        running, sinkUs := StoreChunk(dev, cmd);
        if !running {
          return;
        }
      }
      running := Acknowledge(l, dev, cmd, completion, fetched, gcStart, gcUs, dispatchUs, sinkUs);
    }

    /** One turn: GetCommand on one device, and everything that follows from its reply. */
    method ServeDevice(l: Loop, dev: nat, reply: Reply) returns (running: bool)
      requires Valid()
      modifies this, sink, sink.file, sink.writeBuffer, metrics, metrics.timer, bufferPool, faultInjector
      ensures Valid() && (Model(), running) == Turn(Environment(), old(Model()), l, dev, reply)
    {
      hide Handle, Refused, FileSinks.FileSink.Model, MetricsRecorder.Metrics.Model, FaultInjectors.FaultInjector.Model;
      ghost var fetched := metrics.timer.taken;
      var gcStart := metrics.NowUs();
      trace := trace + [GetCommand(dev, reply)];
      var gcEnd := metrics.NowUs();
      var gcUs := Sub64(gcEnd, gcStart);
      lastCommandUs := gcEnd;
      if Failed(reply.hr) {
        running := HandleRefusal(reply.hr, gcEnd);
        return;
      }
      if reply.cmd.None? {
        return true;
      }
      running := HandleCommand(l, dev, reply.cmd.value, reply.completion, fetched, gcStart, gcUs);
    }

    // ----- the command loop

    method OpenAll(opens: seq<Hresult>) returns (devices: seq<nat>, ok: bool)
      requires Valid()
      modifies this
      ensures Valid()
      ensures (Model(), ok) == OpenedUpTo(old(Model()), opens, DeviceTotal(old(deviceCount)))
      ensures devicesOpened == old(devicesOpened) + |devices|
      ensures ok ==> |devices| == DeviceTotal(old(deviceCount))
      ensures forall k :: 0 <= k < |devices| ==> devices[k] == old(devicesOpened) + k
    {
      hide OpenedUpTo, FileSinks.FileSink.Model, MetricsRecorder.Metrics.Model, FaultInjectors.FaultInjector.Model;
      devices, ok := [], true;
      LifetimeRules.OpeningNothing(Model(), opens);
      var total := if deviceCount > 0 then deviceCount else 1;
      for i := 0 to total
        invariant Valid() && ok && |devices| == i
        invariant (Model(), true) == OpenedUpTo(old(Model()), opens, i)
        invariant devicesOpened == old(devicesOpened) + |devices|
        invariant forall k :: 0 <= k < |devices| ==> devices[k] == old(devicesOpened) + k
      {
        var hr := OpenAnswer(opens, i);
        LifetimeRules.OpeningStep(old(Model()), opens, i + 1);
        trace := trace + [OpenDevice(devicesOpened, hr)];
        if Failed(hr) {
          state := FAILED;
          LifetimeRules.OpeningStopsAtFailure(old(Model()), opens, i + 1, total);
          return devices, false;
        }
        devices := devices + [devicesOpened];
        devicesOpened := devicesOpened + 1;
      }
    }

    method ReleaseAll(devices: seq<nat>, ghost base: nat)
      requires Valid()
      requires forall k :: 0 <= k < |devices| ==> devices[k] == base + k
      modifies this`trace
      ensures Valid() && Model() == ReleasedUpTo(old(Model()), base, |devices|)
    {
      for i := 0 to |devices|
        invariant Valid() && Model() == ReleasedUpTo(old(Model()), base, i)
      {
        trace := trace + [ReleaseDevice(devices[i])];
      }
    }

    /** One round of the nested loop: a turn for every device until a turn stops the loop. `taken`
        replies of the script were used before, `used` after it. */
    method RunRound(l: Loop, devices: seq<nat>, script: seq<Reply>, taken: nat) returns (running: bool, used: nat)
      requires Valid() && devices != []
      requires l.base == devices[0] && l.devices == |devices|
      requires forall k :: 0 <= k < |devices| ==> devices[k] == devices[0] + k
      requires taken <= |script| + 1
      requires !Serve(Environment(), Model(), l, 0, (script + [GONE])[taken..]).1
      modifies this, sink, sink.file, sink.writeBuffer, metrics, metrics.timer, bufferPool, faultInjector
      ensures Valid() && taken < used <= |script| + 1
      ensures Serve(Environment(), old(Model()), l, 0, (script + [GONE])[taken..])
           == if running then Serve(Environment(), Model(), l, 0, (script + [GONE])[used..]) else (Model(), false)
    {
      hide Turn, Serve, FileSinks.FileSink.Model, MetricsRecorder.Metrics.Model, FaultInjectors.FaultInjector.Model;
      ghost var w := Environment();
      ghost var whole := script + [GONE];
      running, used := true, taken;
      for i := 0 to |devices|
        invariant Valid() && used <= |whole| && running && used == taken + i
        invariant Serve(w, old(Model()), l, 0, whole[taken..])
               == Serve(w, Model(), l, if i == |devices| then 0 else i, whole[used..])
      {
        LifetimeRules.ServeNothing(w, Model(), l, i);
        assert whole[|whole|..] == [];
        assert used < |whole|;
        var reply := if used < |script| then script[used] else GONE;
        LifetimeRules.ServeOne(w, Model(), l, i, whole[used..]);
        assert whole[used..][0] == reply && whole[used..][1..] == whole[used + 1..];
        running := ServeDevice(l, devices[i], reply);
        used := used + 1;
        if !running {
          break;
        }
      }
    }

    /** The nested loop, from its initialisation on: rounds while `running`. */
    method RunLoop(devices: seq<nat>, script: seq<Reply>)
      requires Valid() && devices != []
      requires forall k :: 0 <= k < |devices| ==> devices[k] == devices[0] + k
      modifies this, sink, sink.file, sink.writeBuffer, metrics, metrics.timer, bufferPool, faultInjector
      ensures Valid()
      ensures var w := Environment();
        var l := Loop(w.clock(old(metrics.timer.taken)), devices[0], |devices|);
        Model() == Serve(w, LoopBegun(w, old(Model())), l, 0, script + [GONE]).0
    {
      hide Serve;
      ghost var w := Environment();
      ghost var begun := LoopBegun(w, Model());
      var startUs := metrics.NowUs();
      lastCommandUs := startUs;
      lastBytesTotal := 0;
      lastStallWarnUs := startUs;
      assert Model() == begun;
      var l := Loop(startUs, devices[0], |devices|);
      ghost var whole := script + [GONE];
      LifetimeRules.ServeStops(w, begun, l, 0, script, GONE);
      var running := true;
      var taken := 0;
      assert whole[0..] == whole;
      while running
        invariant Valid() && taken <= |whole|
        invariant Serve(w, begun, l, 0, whole)
               == if running then Serve(w, Model(), l, 0, whole[taken..]) else (Model(), false)
        decreases |whole| - taken
      {
        running, taken := RunRound(l, devices, script, taken);
      }
    }

    /** `opens` is what the OpenDevice calls answer, `script` what the server sends. */
    method ProcessCommands(opens: seq<Hresult>, script: seq<Reply>)
      requires Valid()
      modifies this, sink, sink.file, sink.writeBuffer, metrics, metrics.timer, bufferPool, faultInjector
      ensures Valid() && Model() == Processed(Environment(), old(Model()), opens, script)
    {
      hide Serve, OpenedUpTo, ReleasedUpTo, Shut;
      if state != STREAMING {
        return;
      }
      if !deviceSet {
        return;
      }
      ghost var base := devicesOpened;
      var devices, ok := OpenAll(opens);
      if !ok {
        return;
      }
      RunLoop(devices, script);
      ReleaseAll(devices, base);
      if state == FLUSHING {
        Close();
      }
    }
  }
}
