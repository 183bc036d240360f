/** The backup program with a file sink: one client, driven in the program's own order. */
module BackupProgram {
  import opened Words
  import opened VdiProtocol
  import opened SinkModel
  import opened Sessions
  import opened Ledgers
  import Delivery
  import FileSinks
  import Timers
  import VdiClients

  const WRITE_BUFFER_SIZE: nat := 1_048_576

  /** What the environment answers during one run of the program. */
  datatype Answers = Answers(
    comReady: bool, createHr: Hresult, configHr: Hresult, configurationHr: Hresult,
    opens: seq<Hresult>, script: seq<Reply>)

  /** Connecting and opening the devices both worked. */
  predicate GotThrough(a: Answers) {
    a.comReady && !Failed(a.createHr) && !Failed(a.configHr) && !Failed(a.configurationHr)
  }

  /** The calls the program makes on its client: it stops after a failed connect, and closes and
      stops after a failed open_devices. */
  function ProgramCalls(a: Answers): seq<Call> {
    var connect := Connect(a.comReady, a.createHr, a.configHr, 1);
    if !a.comReady || Failed(a.createHr) || Failed(a.configHr) then [connect]
    else if Failed(a.configurationHr) then [connect, OpenDevices(a.configurationHr), Close]
    else [connect, OpenDevices(a.configurationHr), ProcessCommands(a.opens, a.script), Close]
  }

  lemma {:induction false} ApplyAllSnoc(w: World, s: Session, calls: seq<Call>, c: Call)
    ensures ApplyAll(w, s, calls + [c]) == Apply(w, ApplyAll(w, s, calls), c)
    decreases |calls|
  {
    hide Apply;
    if calls == [] {
      assert [c][1..] == [];
      assert calls + [c] == [c];
    } else {
      assert (calls + [c])[1..] == calls[1..] + [c];
      ApplyAllSnoc(w, Apply(w, s, calls[0]), calls[1..], c);
    }
  }

  /** Runs the program to the destruction of its client. The file it leaves holds, when every
      WriteFile made was full, exactly the chunks the server saw acknowledged and at most one more. */
  method RunBackup(a: Answers, pathOk: bool, creates: bool, allocates: bool, clock: Timers.Clock, os: Os)
    returns (exitCode: int, file: FileSinks.OsFile, ghost trace: seq<Event>)
    ensures var sink := Sink(pathOk && creates, pathOk && allocates, WRITE_BUFFER_SIZE, [], []);
      var s := Lifetime(World(clock, os), sink, ProgramCalls(a));
      file.log == s.sink.log && trace == s.trace
    ensures exitCode == if GotThrough(a) then 0 else 1
    ensures var l := Ledgered(trace);
      AllFull(file.log) ==> DiskOf(file.log) == Joined(l.acked + l.unacked) && |l.unacked| <= 1
  {
    hide Apply, Destroyed, Connected, Attached, Processed, Shut, DiskOf, Joined, Ledgered;
    ghost var w := World(clock, os);
    var sink := new FileSinks.FileSink(WRITE_BUFFER_SIZE, pathOk, creates, allocates, os);
    file := sink.file;
    ghost var begun := sink.Model();
    var timer := new Timers.Timer(clock);
    var client := new VdiClients.VdiClient(sink, timer);
    exitCode := DriveClient(client, a);
    client.Destroy();
    trace := client.trace;
    assert client.Model() == Lifetime(w, begun, ProgramCalls(a));
    Delivery.LifetimeDelivers(w, begun, ProgramCalls(a));
  }

  method DriveClient(client: VdiClients.VdiClient, a: Answers) returns (exitCode: int)
    requires client.Valid() && client.Model() == Fresh(client.sink.Model())
    modifies client, client.sink, client.sink.file, client.sink.writeBuffer
    modifies client.metrics, client.metrics.timer, client.bufferPool, client.faultInjector
    ensures client.Valid()
    ensures client.Model() == ApplyAll(client.Environment(), old(client.Model()), ProgramCalls(a))
    ensures exitCode == if GotThrough(a) then 0 else 1
  {
    hide ApplyAll, Attached, Processed, Shut;
    ghost var w := client.Environment();
    ghost var s := client.Model();
    ghost var calls: seq<Call> := [];
    NoCalls(w, s);
    ApplyAllSnoc(w, s, calls, Connect(a.comReady, a.createHr, a.configHr, 1));
    calls := calls + [Connect(a.comReady, a.createHr, a.configHr, 1)];
    var connected := client.Connect(1, a.comReady, a.createHr, a.configHr);
    assert client.Model() == ApplyAll(w, s, calls);
    if !connected {
      assert calls == ProgramCalls(a);
      return 1;
    }
    ApplyAllSnoc(w, s, calls, OpenDevices(a.configurationHr));
    calls := calls + [OpenDevices(a.configurationHr)];
    AttachedAnswers(client.Model(), a.configurationHr);
    var ready := client.OpenDevices(a.configurationHr);
    assert client.Model() == ApplyAll(w, s, calls);
    if !ready {
      ApplyAllSnoc(w, s, calls, Close);
      client.Close();
      assert calls + [Close] == ProgramCalls(a);
      return 1;
    }
    ApplyAllSnoc(w, s, calls, ProcessCommands(a.opens, a.script));
    calls := calls + [ProcessCommands(a.opens, a.script)];
    client.ProcessCommands(a.opens, a.script);
    ApplyAllSnoc(w, s, calls, Close);
    client.Close();
    assert calls + [Close] == ProgramCalls(a);
    return 0;
  }

  lemma NoCalls(w: World, s: Session)
    ensures ApplyAll(w, s, []) == s
  {
  }

  lemma AttachedAnswers(s: Session, hr: Hresult)
    requires s.state == CONNECTED && s.hasSet
    ensures Attached(s, hr).1 <==> !Failed(hr)
  {
  }

  /** The exit code says nothing about the backup: a run that failed in the loop exits 0 as well. */
  lemma FailedRunExitsZero(w: World, sink: Sink)
    ensures var a := Answers(true, S_OK, S_OK, S_OK, [], []);
      && GotThrough(a)
      && ProgramCalls(a)[..3] == [Connect(true, S_OK, S_OK, 1), OpenDevices(S_OK), ProcessCommands([], [])]
      && ApplyAll(w, Fresh(sink), ProgramCalls(a)[..3]).state == FAILED
  {
    var calls := ProgramCalls(Answers(true, S_OK, S_OK, S_OK, [], []))[..3];
    var s := Connected(Fresh(sink), true, S_OK, S_OK, 1).0;
    var t := Attached(s, S_OK).0;
    assert calls[1..] == [OpenDevices(S_OK), ProcessCommands([], [])];
    assert calls[1..][1..] == [ProcessCommands([], [])];
    assert calls[1..][1..][1..] == [];
    hide Processed;
    assert ApplyAll(w, Fresh(sink), calls) == ApplyAll(w, s, calls[1..]) == ApplyAll(w, t, calls[1..][1..]);
    assert ApplyAll(w, t, calls[1..][1..]) == Processed(w, t, [], []);
    SilentRunFails(w, t);
  }

  lemma SilentRunFails(w: World, s: Session)
    requires s.state == STREAMING && s.hasSet && !s.closed && s.deviceCount == 1
    ensures Processed(w, s, [], []).state == FAILED
  {
    assert OpenedUpTo(s, [], 0) == (s, true);
    var o := OpenedUpTo(s, [], 1).0;
    var l := LoopOf(w, s, o);
    var e := Turn(w, LoopBegun(w, o), l, l.base + 0, GONE).0;
    assert [] + [GONE] == [GONE];
    assert Serve(w, LoopBegun(w, o), l, 0, [GONE]).0 == e;
    assert ReleasedUpTo(e, l.base, 0) == e;
  }
}
