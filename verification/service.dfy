/** What a command gets: exactly when the loop takes it and goes on, the calls made for it, and that
    a backup whose server and file system behave succeeds. */
module Service {
  import opened Words
  import opened VdiProtocol
  import opened SinkModel
  import opened SinkLaws
  import opened FaultInjectors
  import opened Sessions
  import opened TurnFacts
  import opened ProtocolRules
  import opened LifetimeRules
  import opened Ledgers
  import opened Delivery

  predicate Malformed(cmd: Command) {
    cmd.buffer.None? || cmd.size == 0 || cmd.size > 1024 * 1024 * 1024
  }

  /** The answer a chunk of this size gets, by the sink's own state and WriteFile's next answers: a
      chunk below the capacity is taken unseen, any other only if its own WriteFile took all of it. */
  predicate Takes(s: Sink, os: Os, size: nat) {
    && s.handle && s.hasBuffer
    && (size >= s.capacity ==>
          var answer := os(|s.log| + if s.buffered == [] then 0 else 1);
          answer.ok && answer.written >= size)
  }

  predicate Served(w: World, s: Session, cmd: Command) {
    cmd.code == VDC_WRITE ==> !Malformed(cmd) && Takes(s.sink, w.os, cmd.size)
  }

  predicate Fires(i: Injector) {
    i.failAfter > 0 && (i.counter + 1) % 0x1_0000_0000_0000_0000 >= i.failAfter
  }

  predicate HandsOut(r: Reply) {
    !Failed(r.hr) && r.cmd.Some?
  }

  lemma WriteTakes(s: Sink, os: Os, data: seq<byte>)
    requires |data| < TWO_32
    ensures Written(s, os, data).1 <==> Takes(s, os, |data|)
  {
  }

  lemma StoreAnswers(w: World, s: Session, dev: nat, cmd: Command)
    requires cmd.code == VDC_WRITE
    ensures var (t, running, us) := StoreChunk(w, s, dev, cmd);
      var tried := !Malformed(cmd) && s.sink.handle;
      && (running <==> Served(w, s, cmd))
      && t.trace == s.trace + [Counted(cmd.size, Lent(s))] + (if tried then [Store(dev, cmd, running)] else [])
      && t.sink == (if tried then Written(s.sink, w.os, cmd.buffer.value[..cmd.size]).0 else s.sink)
      && t.injector == s.injector
  {
    hide Written;
    if !Malformed(cmd) {
      WriteTakes(s.sink, w.os, Payload(cmd));
    }
  }

  lemma AcknowledgeAnswers(
    w: World, s: Session, l: Loop, dev: nat, cmd: Command, hr: Hresult, fetched: nat, sinkUs: u64)
    ensures var (t, running) := Acknowledge(w, s, l, dev, cmd, hr, fetched, sinkUs);
      && (running <==> !Failed(hr) && !Fires(s.injector))
      && t.trace == s.trace + [Complete(dev, cmd, hr)] + (if !Failed(hr) && !running then [Injected] else [])
      && t.sink == s.sink && t.injector.failAfter == s.injector.failAfter
  {
    hide MakeTiming;
  }

  /** The calls made for a command. */
  function CommandCalls(w: World, s: Session, dev: nat, cmd: Command, completion: Hresult): seq<Event> {
    (if cmd.code == VDC_WRITE then
       [Counted(cmd.size, Lent(s))]
         + (if Malformed(cmd) || !s.sink.handle then [] else [Store(dev, cmd, Served(w, s, cmd))])
     else [])
    + (if Served(w, s, cmd) then
         [Complete(dev, cmd, completion)] + (if !Failed(completion) && Fires(s.injector) then [Injected] else [])
       else [])
  }

  /** How the client answers a command that does not ask for the end. */
  ghost predicate Answered(w: World, s: Session, dev: nat, cmd: Command, completion: Hresult, t: Session, running: bool)
  {
    && (running <==> Served(w, s, cmd) && !Failed(completion) && !Fires(s.injector))
    && t.trace == s.trace + CommandCalls(w, s, dev, cmd, completion)
    && t.sink == (if cmd.code == VDC_WRITE && !Malformed(cmd) && s.sink.handle
                  then Written(s.sink, w.os, cmd.buffer.value[..cmd.size]).0 else s.sink)
    && t.injector.failAfter == s.injector.failAfter
  }

  lemma WriteAnswers(w: World, s: Session, l: Loop, dev: nat, cmd: Command, completion: Hresult, fetched: nat)
    requires cmd.code == VDC_WRITE
    ensures var (t, running, sinkUs) := StoreChunk(w, s, dev, cmd);
      if running then
        var (u, goesOn) := Acknowledge(w, t, l, dev, cmd, completion, fetched, sinkUs);
        Answered(w, s, dev, cmd, completion, u, goesOn)
      else Answered(w, s, dev, cmd, completion, t, false)
  {
    hide StoreChunk, Acknowledge, Written, Takes, Malformed, Fires;
    StoreAnswers(w, s, dev, cmd);
    var (t, running, sinkUs) := StoreChunk(w, s, dev, cmd);
    AcknowledgeAnswers(w, t, l, dev, cmd, completion, fetched, sinkUs);
  }

  lemma HandleAnswers(w: World, s: Session, l: Loop, dev: nat, cmd: Command, completion: Hresult, fetched: nat)
    requires cmd.code != VDC_CLOSE
    ensures var (t, running) := Handle(w, s, l, dev, cmd, completion, fetched);
      Answered(w, s, dev, cmd, completion, t, running)
  {
    hide StoreChunk, Acknowledge, Written, Takes, Malformed, Fires;
    var d := s.(ticks := s.ticks + 2);
    assert CommandCalls(w, d, dev, cmd, completion) == CommandCalls(w, s, dev, cmd, completion);
    if cmd.code == VDC_WRITE {
      hide CommandCalls;
      WriteAnswers(w, d, l, dev, cmd, completion, fetched);
    } else {
      AcknowledgeAnswers(w, d, l, dev, cmd, completion, fetched, 0);
    }
  }

  /** A turn stops exactly when GetCommand failed with anything but a timeout, or handed out a close, a
      malformed write, a write the sink does not take, or a command that could not be completed or
      is the one to inject a fault at. Codes are given as they are on the wire. */
  lemma {:induction false} TurnStopsIff(w: World, s: Session, l: Loop, dev: nat, reply: Reply)
    ensures !Turn(w, s, l, dev, reply).1 <==>
      || (reply.hr >= 0x8000_0000 && reply.hr != 0x8077_0003)
      || (reply.hr < 0x8000_0000 && reply.cmd.Some? &&
          var cmd := reply.cmd.value;
          || cmd.code == 99
          || (cmd.code == 2 && (Malformed(cmd) || !Takes(s.sink, w.os, cmd.size)))
          || reply.completion >= 0x8000_0000
          || Fires(s.injector))
    ensures var (t, running) := Turn(w, s, l, dev, reply);
      s.state == STREAMING && !running ==>
        && (t.state == FLUSHING <==> reply.hr == 0x8077_0001 || reply.hr == 0x8077_000E)
        && (t.state == STREAMING <==> reply.hr < 0x8000_0000 && reply.cmd.Some? && reply.cmd.value.code == 99)
  {
    if s.state == STREAMING {
      TurnOutcome(w, s, l, dev, reply);
    }
    hide Handle, Drained, Fires, Takes, Malformed;
    var g := Polled(w, s, dev, reply);
    if HandsOut(reply) && reply.cmd.value.code != VDC_CLOSE {
      HandleAnswers(w, g, l, dev, reply.cmd.value, reply.completion, s.ticks);
    } else if HandsOut(reply) {
      StopReplyStops(w, s, l, dev, reply);
    }
  }

  /** Every call a turn makes for a command, and what becomes of the sink: a good write is counted,
      stored and completed, and the loop goes on; a reply without a command changes nothing but the
      time of the last one. */
  lemma {:induction false} TurnServes(w: World, s: Session, l: Loop, dev: nat, reply: Reply)
    requires !Failed(reply.hr)
    ensures var t := Turn(w, s, l, dev, reply).0;
      match reply.cmd
      case None =>
        t == s.(ticks := t.ticks, lastCommandUs := t.lastCommandUs, trace := s.trace + [GetCommand(dev, reply)])
      case Some(cmd) =>
        && t.trace == s.trace + [GetCommand(dev, reply)]
             + (if cmd.code == VDC_CLOSE then [] else CommandCalls(w, s, dev, cmd, reply.completion))
        && t.sink == (if cmd.code == VDC_WRITE && !Malformed(cmd) && s.sink.handle
                      then Written(s.sink, w.os, cmd.buffer.value[..cmd.size]).0 else s.sink)
        && t.injector.failAfter == s.injector.failAfter
  {
    hide StoreChunk, Acknowledge, Written, Fires, Takes, Malformed;
    if reply.cmd.Some? && reply.cmd.value.code != VDC_CLOSE {
      HandleAnswers(w, Polled(w, s, dev, reply), l, dev, reply.cmd.value, reply.completion, s.ticks);
    }
  }

  // ----- a backup in good order

  /** A file system that succeeds at every WriteFile and stores whole blocks. */
  ghost predicate Obliging(os: Os) {
    forall n: nat :: os(n).ok && os(n).written >= TWO_32
  }

  ghost predicate AllOnDisk(s: Sink) {
    s.Valid() && s.Ready() && AllFull(s.log) && Uncut(s.log)
  }

  lemma ObligingDrains(s: Sink, os: Os, cause: Cause)
    requires Obliging(os) && AllOnDisk(s) && cause != Direct
    ensures var d := Drained(s, os, cause);
      AllOnDisk(d) && d.buffered == [] && d.Disk() == s.Contents() && d.Contents() == s.Contents()
  {
    hide Committed, DiskOf;
    DrainStep(s, os, cause);
    FlagsSnoc(s.log, s.Call(os, cause, s.buffered, |s.buffered|));
  }

  lemma ObligingWrites(s: Sink, os: Os, data: seq<byte>)
    requires Obliging(os) && AllOnDisk(s) && |data| < TWO_32
    ensures var (t, ok) := Written(s, os, data);
      ok && AllOnDisk(t) && t.Contents() == s.Contents() + data
  {
    hide Committed, DiskOf;
    WriteStep(s, os, data);
    ObligingDrains(s, os, Drain);
    var d := Drained(s, os, Drain);
    FlagsSnoc(d.log, d.Call(os, Direct, data[..Dword(|data|)], |data|));
    FullLogIsOnDisk(s.log);
    FullLogIsOnDisk(Written(s, os, data).0.log);
  }

  /** A reply of a backup in good order, before its end. */
  predicate Orderly(r: Reply) {
    if Failed(r.hr) then r.hr == VD_E_TIMEOUT
    else r.cmd.Some? ==>
      && r.cmd.value.code != VDC_CLOSE && !Failed(r.completion)
      && (r.cmd.value.code == VDC_WRITE ==> !Malformed(r.cmd.value))
  }

  function DataOf(r: Reply): seq<byte> {
    if HandsOutWrite(r) && r.cmd.value.buffer.Some? then r.cmd.value.buffer.value[..r.cmd.value.size] else []
  }

  /** The data of all write commands, in the order they are handed out. */
  function DataIn(script: seq<Reply>): seq<byte> {
    if script == [] then [] else DataOf(script[0]) + DataIn(script[1..])
  }

  ghost predicate GoingWell(s: Session) {
    s.state == STREAMING && AllOnDisk(s.sink) && s.injector.failAfter == 0
  }

  lemma OrderlyTurn(w: World, s: Session, l: Loop, dev: nat, reply: Reply)
    requires Obliging(w.os) && GoingWell(s) && Orderly(reply)
    ensures var (t, running) := Turn(w, s, l, dev, reply);
      running && GoingWell(t) && t.sink.Contents() == s.sink.Contents() + DataOf(reply)
  {
    hide Turn, Written, AllOnDisk;
    TurnStopsIff(w, s, l, dev, reply);
    TurnOutcome(w, s, l, dev, reply);
    if Failed(reply.hr) {
      TimeoutLeavesSink(w, s, l, dev, reply);
    } else {
      TurnServes(w, s, l, dev, reply);
      if HandsOutWrite(reply) {
        ObligingWrites(s.sink, w.os, DataOf(reply));
        WriteTakes(s.sink, w.os, DataOf(reply));
      }
    }
  }

  lemma TimeoutLeavesSink(w: World, s: Session, l: Loop, dev: nat, reply: Reply)
    requires reply.hr == VD_E_TIMEOUT
    ensures var t := Turn(w, s, l, dev, reply).0;
      t.sink == s.sink && t.injector == s.injector
  {
    hide Drained;
  }

  /** The server ends the session. */
  lemma EndTurn(w: World, s: Session, l: Loop, dev: nat, end: Reply)
    requires Obliging(w.os) && GoingWell(s) && EndsSession(end)
    ensures var (t, running) := Turn(w, s, l, dev, end);
      && !running && t.state == FLUSHING
      && AllOnDisk(t.sink) && t.sink.buffered == [] && t.sink.Disk() == s.sink.Contents()
  {
    hide Drained, AllOnDisk, DiskOf;
    ObligingDrains(s.sink, w.os, Flush);
  }

  lemma {:induction false} OrderlyLoop(
    w: World, s: Session, l: Loop, i: nat, script: seq<Reply>, end: Reply, rest: seq<Reply>)
    requires Obliging(w.os) && GoingWell(s) && EndsSession(end)
    requires forall k :: 0 <= k < |script| ==> Orderly(script[k])
    ensures var (t, running) := Serve(w, s, l, i, script + [end] + rest);
      && !running && t.state == FLUSHING
      && AllOnDisk(t.sink) && t.sink.buffered == [] && t.sink.Disk() == s.sink.Contents() + DataIn(script)
    decreases |script|
  {
    hide Turn, Orderly, GoingWell, DataOf, EndsSession;
    var whole := script + [end] + rest;
    if script == [] {
      EndTurn(w, s, l, l.base + i, end);
    } else {
      OrderlyTurn(w, s, l, l.base + i, script[0]);
      var t := Turn(w, s, l, l.base + i, script[0]).0;
      assert whole[1..] == script[1..] + [end] + rest;
      OrderlyLoop(w, t, l, Next(l, i), script[1..], end, rest);
      Regroup(s.sink.Contents(), DataOf(script[0]), DataIn(script[1..]));
    }
  }

  lemma Regroup(a: seq<byte>, b: seq<byte>, c: seq<byte>)
    ensures a + b + c == a + (b + c)
  {
  }

  lemma EndKeepsSink(w: World, s: Session, l: Loop)
    requires s.state == FLUSHING && s.sink.buffered == [] && !s.closed
    ensures var e := LoopEnded(w, s, l); e.state == CLOSED && e.sink == s.sink
  {
    hide ReleasedUpTo;
    ReleasingFacts(s, l.base, l.devices);
  }

  /** A run whose devices open, whose server hands out well-formed writes and other commands, empty
      replies and timeouts in any order until it ends the session, and whose file system works, ends
      CLOSED with all the data of the writes, in order, on disk. */
  lemma {:induction false} OrderlyRunSucceeds(
    w: World, s: Session, opens: seq<Hresult>, script: seq<Reply>, end: Reply, rest: seq<Reply>)
    requires AtRest(s) && GoingWell(s) && Obliging(w.os) && EndsSession(end)
    requires forall j: nat :: j < DeviceTotal(s.deviceCount) ==> !Failed(OpenAnswer(opens, j))
    requires forall k :: 0 <= k < |script| ==> Orderly(script[k])
    ensures var t := Processed(w, s, opens, script + [end] + rest);
      && t.state == CLOSED
      && AllOnDisk(t.sink) && t.sink.buffered == [] && t.sink.Disk() == s.sink.Contents() + DataIn(script)
  {
    hide Serve, OpenedUpTo, LoopEnded, Watched, Orderly, AllOnDisk, EndsSession;
    var n := DeviceTotal(s.deviceCount);
    OpeningObeys(s, opens, n);
    OpeningFacts(s, opens, n);
    var o := OpenedUpTo(s, opens, n).0;
    var l := LoopOf(w, s, o);
    var b := LoopBegun(w, o);
    var whole := script + [end] + rest + [GONE];
    assert whole == script + [end] + (rest + [GONE]);
    OrderlyLoop(w, b, l, 0, script, end, rest + [GONE]);
    ServeObeys(w, b, l, 0, whole);
    EndKeepsSink(w, Serve(w, b, l, 0, whole).0, l);
  }

  /** The books of such a run: everything was stored and acknowledged. */
  lemma OrderlyRunBooks(
    w: World, s: Session, opens: seq<Hresult>, script: seq<Reply>, end: Reply, rest: seq<Reply>)
    requires AtRest(s) && Settled(s) && GoingWell(s) && Obliging(w.os) && EndsSession(end)
    requires forall j: nat :: j < DeviceTotal(s.deviceCount) ==> !Failed(OpenAnswer(opens, j))
    requires forall k :: 0 <= k < |script| ==> Orderly(script[k])
    ensures var t := Processed(w, s, opens, script + [end] + rest);
      var l := Ledgered(t.trace);
      && t.state == CLOSED && t.closed && t.sink.buffered == []
      && t.sink.Disk() == Joined(l.acked) == s.sink.Contents() + DataIn(script)
      && l.unacked == [] && l.stored == l.acked
  {
    hide Processed, Orderly, Ledgered, Joined, Committed, DiskOf, Watched, CountersFit;
    OrderlyRunSucceeds(w, s, opens, script, end, rest);
    CleanEndIsComplete(w, s, opens, script + [end] + rest);
    var t := Processed(w, s, opens, script + [end] + rest);
    ProcessedObeys(w, s, opens, script + [end] + rest);
    FullLogIsOnDisk(t.sink.log);
  }

  lemma StreamingClient(w: World, sink: Sink, create: Hresult, config: Hresult, count: int, configuration: Hresult)
    requires NewSink(sink) && sink.Ready() && !Failed(create) && !Failed(config) && !Failed(configuration)
    ensures var a := Apply(w, Fresh(sink), Connect(true, create, config, count));
      var b := Apply(w, a, OpenDevices(configuration));
      && AtRest(b) && Settled(b) && GoingWell(b)
      && b.sink.Contents() == [] && b.deviceCount == count
  {
    hide Watched, Books, Closable, Committed;
    var a := Apply(w, Fresh(sink), Connect(true, create, config, count));
    FreshAtRest(sink);
    FreshSettled(sink);
    CallObeys(w, Fresh(sink), Connect(true, create, config, count));
    CallKeepsBooks(w, Fresh(sink), Connect(true, create, config, count));
    CallObeys(w, a, OpenDevices(configuration));
    CallKeepsBooks(w, a, OpenDevices(configuration));
  }

  lemma ApplyThree(w: World, s: Session, x: Call, y: Call, z: Call, later: seq<Call>)
    ensures ApplyAll(w, s, [x, y, z] + later) == ApplyAll(w, Apply(w, Apply(w, Apply(w, s, x), y), z), later)
  {
    hide Apply;
    var calls := [x, y, z] + later;
    assert calls[1..] == [y, z] + later && calls[1..][1..] == [z] + later && calls[1..][1..][1..] == later;
    assert ApplyAll(w, s, calls) == ApplyAll(w, Apply(w, s, x), calls[1..]);
    assert ApplyAll(w, Apply(w, s, x), calls[1..]) == ApplyAll(w, Apply(w, Apply(w, s, x), y), calls[1..][1..]);
  }

  /** So does a whole backup from a new client: it leaves, and everything called after it and its
      destruction leave, a file that is exactly the data the server handed out, every chunk of it
      acknowledged. */
  lemma {:induction false} OrderlyBackupSucceeds(
    w: World, sink: Sink, create: Hresult, config: Hresult, count: int, configuration: Hresult,
    opens: seq<Hresult>, script: seq<Reply>, end: Reply, rest: seq<Reply>, later: seq<Call>)
    requires NewSink(sink) && sink.Ready() && Obliging(w.os) && EndsSession(end)
    requires !Failed(create) && !Failed(config) && !Failed(configuration)
    requires forall j: nat :: j < DeviceTotal(count) ==> !Failed(OpenAnswer(opens, j))
    requires forall k :: 0 <= k < |script| ==> Orderly(script[k])
    ensures var run := ProcessCommands(opens, script + [end] + rest);
      var calls := [Connect(true, create, config, count), OpenDevices(configuration), run];
      var t := Lifetime(w, sink, calls + later);
      var l := Ledgered(t.trace);
      && t.state == CLOSED
      && t.sink.Disk() == Joined(l.acked) == DataIn(script) && l.unacked == []
  {
    hide Connected, Attached, ApplyAll, Processed, Ledgered, Joined, DiskOf, AtRest, Settled, GoingWell, Destroyed;
    hide Orderly, EndsSession, DataIn;
    var connect := Connect(true, create, config, count);
    var run := ProcessCommands(opens, script + [end] + rest);
    StreamingClient(w, sink, create, config, count, configuration);
    var b := Apply(w, Apply(w, Fresh(sink), connect), OpenDevices(configuration));
    OrderlyRunBooks(w, b, opens, script, end, rest);
    ApplyThree(w, Fresh(sink), connect, OpenDevices(configuration), run, later);
    ClosedIsFinal(w, Apply(w, b, run), later);
    assert [] + DataIn(script) == DataIn(script);
  }
}
