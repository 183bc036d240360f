/** Whom the loop polls, which devices it opens and releases, and how it ends. */
module Polling {
  import opened Words
  import opened VdiProtocol
  import SinkModel
  import opened Sessions
  import opened ProtocolRules
  import opened LifetimeRules
  import opened RunTiming
  import opened TurnFacts

  /** The GetCommand calls in a trace, with their replies. */
  function Polls(trace: seq<Event>): seq<Event> {
    Select(trace, Polling)
  }

  lemma TurnPolls(w: World, s: Session, l: Loop, dev: nat, reply: Reply)
    ensures Polls(Turn(w, s, l, dev, reply).0.trace) == Polls(s.trace) + [GetCommand(dev, reply)]
  {
    hide Turn, Select;
    TurnGrows(w, s, l, dev, reply);
    SelectNext(s.trace, GetCommand(dev, reply), Polling);
    GrownSelects(s.trace + [GetCommand(dev, reply)], Turn(w, s, l, dev, reply).0.trace,
      if EndsSession(reply) then {Flushing} else if Failed(reply.hr) then {Warning} else {Working}, Polling);
  }

  // ----- the round robin

  /** The device position the j-th turn of a loop serves. */
  function Slot(l: Loop, j: nat): nat {
    if j == 0 then 0 else Next(l, Slot(l, j - 1))
  }

  /** The polls of turns j, j + 1, ... on the given replies. */
  function InTurn(l: Loop, j: nat, script: seq<Reply>): seq<Event> {
    seq(|script|, k requires 0 <= k < |script| => GetCommand(l.base + Slot(l, j + k), script[k]))
  }

  /** How many turns the loop takes on a script. */
  function TurnsTaken(w: World, s: Session, l: Loop, i: nat, script: seq<Reply>): (k: nat)
    ensures k <= |script|
    ensures script != [] ==> k > 0
    decreases |script|
  {
    if script == [] then 0
    else
      var (t, running) := Turn(w, s, l, l.base + i, script[0]);
      if !running then 1 else 1 + TurnsTaken(w, t, l, Next(l, i), script[1..])
  }

  lemma {:induction false} ServePolls(w: World, s: Session, l: Loop, j: nat, script: seq<Reply>)
    ensures var k := TurnsTaken(w, s, l, Slot(l, j), script);
      var (t, running) := Serve(w, s, l, Slot(l, j), script);
      && Polls(t.trace) == Polls(s.trace) + InTurn(l, j, script[..k])
      && (running ==> k == |script|)
    decreases |script|
  {
    hide Turn, Polls;
    if script != [] {
      TurnPolls(w, s, l, l.base + Slot(l, j), script[0]);
      var (t, running) := Turn(w, s, l, l.base + Slot(l, j), script[0]);
      if running {
        ServePolls(w, t, l, j + 1, script[1..]);
        var k := TurnsTaken(w, t, l, Slot(l, j + 1), script[1..]);
        assert script[..k + 1] == [script[0]] + script[1..][..k];
        var first := GetCommand(l.base + Slot(l, j), script[0]);
        assert InTurn(l, j, script[..k + 1]) == [first] + InTurn(l, j + 1, script[1..][..k]);
      } else {
        assert InTurn(l, j, script[..1]) == [GetCommand(l.base + Slot(l, j), script[0])];
      }
    }
  }

  /** How often the first k turns serve position d. */
  function ServedAt(l: Loop, k: nat, d: nat): nat {
    if k == 0 then 0 else ServedAt(l, k - 1, d) + if Slot(l, k - 1) == d then 1 else 0
  }

  lemma RoundStep(q: nat, n: nat)
    requires q > 0
    ensures q * n == (q - 1) * n + n
  {
  }

  /** After q rounds and r more turns every position was served q times, the first r once more. */
  lemma {:induction false} RoundsOf(l: Loop, k: nat, q: nat, r: nat, d: nat)
    requires r < l.devices && d < l.devices && k == q * l.devices + r
    ensures Slot(l, k) == r && ServedAt(l, k, d) == q + if d < r then 1 else 0
    decreases k
  {
    if r > 0 {
      RoundsOf(l, k - 1, q, r - 1, d);
    } else if q > 0 {
      RoundStep(q, l.devices);
      RoundsOf(l, k - 1, q - 1, l.devices - 1, d);
    }
  }

  /** How many of the calls are polls of the device. */
  function PollsOf(calls: seq<Event>, dev: nat): nat {
    if calls == [] then 0
    else
      var e := calls[|calls| - 1];
      PollsOf(calls[..|calls| - 1], dev) + if e.GetCommand? && e.dev == dev then 1 else 0
  }

  lemma {:induction false} InTurnCounts(l: Loop, script: seq<Reply>, d: nat)
    ensures PollsOf(InTurn(l, 0, script), l.base + d) == ServedAt(l, |script|, d)
  {
    if script != [] {
      var k := |script| - 1;
      assert InTurn(l, 0, script)[..k] == InTurn(l, 0, script[..k]);
      InTurnCounts(l, script[..k], d);
    }
  }

  lemma {:induction false} InTurnIsEven(l: Loop, script: seq<Reply>, d: nat, e: nat)
    requires d < l.devices && e < l.devices
    ensures -1 <= PollsOf(InTurn(l, 0, script), l.base + d) - PollsOf(InTurn(l, 0, script), l.base + e) <= 1
  {
    var k := |script|;
    var q, r := k / l.devices, k % l.devices;
    DivBounds(k, l.devices);
    assert k == q * l.devices + r;
    RoundsOf(l, k, q, r, d);
    RoundsOf(l, k, q, r, e);
    InTurnCounts(l, script, d);
    InTurnCounts(l, script, e);
  }

  // ----- how a run ends

  lemma {:induction false} ServeOutcome(w: World, s: Session, l: Loop, j: nat, script: seq<Reply>)
    requires s.state == STREAMING && !Serve(w, s, l, Slot(l, j), script).1
    ensures var t := Serve(w, s, l, Slot(l, j), script).0;
      var k := TurnsTaken(w, s, l, Slot(l, j), script);
      && k > 0
      && (forall i :: 0 <= i < k - 1 ==> !Stops(script[i]))
      && (t.state == FLUSHING <==> EndsSession(script[k - 1]))
      && (t.state == STREAMING <==> AsksToClose(script[k - 1]))
      && t.state in {FLUSHING, STREAMING, FAILED}
    decreases |script|
  {
    hide Turn;
    var (t, running) := Turn(w, s, l, l.base + Slot(l, j), script[0]);
    TurnOutcome(w, s, l, l.base + Slot(l, j), script[0]);
    if running {
      ServeOutcome(w, t, l, j + 1, script[1..]);
      var k := TurnsTaken(w, t, l, Slot(l, j + 1), script[1..]);
      assert forall i :: 0 < i < k ==> script[i] == script[1..][i - 1];
    }
  }

  /** One run of process_commands, all devices opened: it polls the devices in turn, each reply of
      the script going to the next device, and is stopped by none but its last reply. It closes the
      session exactly on VD_E_CLOSE or VD_E_EOF and leaves it streaming exactly on a VDC_Close
      command; otherwise it fails, and the failed session still has its set and is not closed. */
  lemma {:induction false} RunPollsInTurn(w: World, s: Session, opens: seq<Hresult>, script: seq<Reply>)
    requires AtRest(s) && s.state == STREAMING
    requires OpenedUpTo(s, opens, DeviceTotal(s.deviceCount)).1
    ensures var t := Processed(w, s, opens, script);
      var l := Loop(w.clock(s.ticks), s.devicesOpened, DeviceTotal(s.deviceCount));
      var whole := script + [GONE];
      exists k: nat :: 0 < k <= |whole|
        && (forall j :: 0 <= j < k - 1 ==> !Stops(whole[j]))
        && Polls(t.trace) == Polls(s.trace) + InTurn(l, 0, whole[..k])
        && (t.state == CLOSED <==> EndsSession(whole[k - 1]))
        && (t.state == STREAMING <==> AsksToClose(whole[k - 1]))
        && (t.state == FAILED ==> t.hasSet && !t.closed)
        && t.state in {STREAMING, CLOSED, FAILED}
  {
    hide Serve, OpenedUpTo, LoopEnded, Select, Watched, TurnsTaken, Turn;
    var n := DeviceTotal(s.deviceCount);
    OpeningObeys(s, opens, n);
    OpeningFacts(s, opens, n);
    var o := OpenedUpTo(s, opens, n).0;
    GrownSelects(s.trace, o.trace, {Opening}, Polling);
    var l := LoopOf(w, s, o);
    var b := LoopBegun(w, o);
    var whole := script + [GONE];
    ServeStops(w, b, l, 0, script, GONE);
    ServePolls(w, b, l, 0, whole);
    ServeOutcome(w, b, l, 0, whole);
    ServeObeys(w, b, l, 0, whole);
    var e := Serve(w, b, l, 0, whole).0;
    EndingFacts(w, e, l);
    GrownSelects(e.trace, LoopEnded(w, e, l).trace, {Releasing, Flushing}, Polling);
    LoopEndedObeys(w, e, l);
    FailedKeepsSet(w, e, l);
    var k := TurnsTaken(w, b, l, 0, whole);
    assert 0 < k <= |whole| && Polls(LoopEnded(w, e, l).trace) == Polls(s.trace) + InTurn(l, 0, whole[..k]);
  }

  /** Throughout such a run, timeouts and empty replies included, no device was polled more than
      once more often than another. */
  lemma {:induction false} RunPollsEvenly(
    w: World, s: Session, opens: seq<Hresult>, script: seq<Reply>, j: nat, d: nat, e: nat)
    requires AtRest(s) && s.state == STREAMING
    requires OpenedUpTo(s, opens, DeviceTotal(s.deviceCount)).1
    requires d < DeviceTotal(s.deviceCount) && e < DeviceTotal(s.deviceCount)
    requires j <= |Polls(Processed(w, s, opens, script).trace)| - |Polls(s.trace)|
    ensures var polls := Polls(Processed(w, s, opens, script).trace);
      var past := |Polls(s.trace)|;
      && polls[..past] == Polls(s.trace)
      && var now := polls[past..past + j];
         -1 <= PollsOf(now, s.devicesOpened + d) - PollsOf(now, s.devicesOpened + e) <= 1
  {
    hide Processed, Polls, OpenedUpTo, AtRest;
    RunPollsInTurn(w, s, opens, script);
    var t := Processed(w, s, opens, script);
    var l := Loop(w.clock(s.ticks), s.devicesOpened, DeviceTotal(s.deviceCount));
    var whole := script + [GONE];
    var k: nat :| k <= |whole| && Polls(t.trace) == Polls(s.trace) + InTurn(l, 0, whole[..k]);
    assert Polls(t.trace)[|Polls(s.trace)|..|Polls(s.trace)| + j] == InTurn(l, 0, whole[..j]);
    InTurnIsEven(l, whole[..j], d, e);
  }

  /** What the server would have sent after a reply that ends the loop makes no difference. */
  lemma {:induction false} RestIsIgnored(
    w: World, s: Session, opens: seq<Hresult>, script: seq<Reply>, r: Reply, rest: seq<Reply>)
    requires Stops(r)
    ensures Processed(w, s, opens, script + [r] + rest) == Processed(w, s, opens, script + [r])
  {
    hide Serve, OpenedUpTo, LoopEnded;
    if s.state == STREAMING && s.hasSet && OpenedUpTo(s, opens, DeviceTotal(s.deviceCount)).1 {
      var o := OpenedUpTo(s, opens, DeviceTotal(s.deviceCount)).0;
      var l := LoopOf(w, s, o);
      var b := LoopBegun(w, o);
      ServeStops(w, b, l, 0, script, r);
      ServeIgnoresRest(w, b, l, 0, script + [r], rest + [GONE]);
      ServeIgnoresRest(w, b, l, 0, script + [r], [GONE]);
      assert script + [r] + rest + [GONE] == script + [r] + (rest + [GONE]);
    }
  }

  /** What a loop adds to the trace: no release, and a flush exactly when the server ends the session. */
  lemma {:induction false} ServeFlushes(w: World, s: Session, l: Loop, i: nat, script: seq<Reply>)
    requires s.state == STREAMING
    ensures var t := Serve(w, s, l, i, script).0;
      && s.trace <= t.trace
      && Select(t.trace, Releasing) == Select(s.trace, Releasing)
      && Select(t.trace, Flushing) == Select(s.trace, Flushing) + if t.state == FLUSHING then [FlushSink] else []
    decreases |script|
  {
    hide Turn, Select;
    if script != [] {
      var dev := l.base + i;
      var (t, running) := Turn(w, s, l, dev, script[0]);
      var polled := s.trace + [GetCommand(dev, script[0])];
      TurnOutcome(w, s, l, dev, script[0]);
      TurnGrows(w, s, l, dev, script[0]);
      SelectNext(s.trace, GetCommand(dev, script[0]), Releasing);
      SelectNext(s.trace, GetCommand(dev, script[0]), Flushing);
      if EndsSession(script[0]) {
        SelectNext(polled, FlushSink, Releasing);
        SelectNext(polled, FlushSink, Flushing);
      } else {
        var kinds := if Failed(script[0].hr) then {Warning} else {Working};
        GrownSelects(polled, t.trace, kinds, Releasing);
        GrownSelects(polled, t.trace, kinds, Flushing);
      }
      if running {
        ServeFlushes(w, t, l, Next(l, i), script[1..]);
      }
    }
  }

  /** The sink is flushed before the first device of a run is released exactly when the server ended
      the session; a run left by a VDC_Close command or a failure releases its devices unflushed. */
  lemma {:induction false} FlushPrecedesRelease(w: World, s: Session, opens: seq<Hresult>, script: seq<Reply>)
    requires AtRest(s) && s.state == STREAMING
    requires OpenedUpTo(s, opens, DeviceTotal(s.deviceCount)).1
    ensures var t := Processed(w, s, opens, script);
      exists m: nat :: m < |t.trace|
        && s.trace <= t.trace[..m] && t.trace[m] == ReleaseDevice(s.devicesOpened)
        && Select(t.trace[..m], Releasing) == Select(s.trace, Releasing)
        && Select(t.trace[..m], Flushing) == Select(s.trace, Flushing) + if t.state == CLOSED then [FlushSink] else []
  {
    hide Serve, OpenedUpTo, LoopEnded, Select, Watched;
    var n := DeviceTotal(s.deviceCount);
    OpeningObeys(s, opens, n);
    OpeningFacts(s, opens, n);
    var o := OpenedUpTo(s, opens, n).0;
    GrownSelects(s.trace, o.trace, {Opening}, Releasing);
    GrownSelects(s.trace, o.trace, {Opening}, Flushing);
    var l := LoopOf(w, s, o);
    var b := LoopBegun(w, o);
    ServeStops(w, b, l, 0, script, GONE);
    ServeFlushes(w, b, l, 0, script + [GONE]);
    ServeObeys(w, b, l, 0, script + [GONE]);
    var e := Serve(w, b, l, 0, script + [GONE]).0;
    EndingFacts(w, e, l);
    LoopEndedObeys(w, e, l);
    var t := Processed(w, s, opens, script);
    assert t == LoopEnded(w, e, l) && t.trace[..|e.trace|] == e.trace;
    assert s.trace <= o.trace && b.trace == o.trace;
  }

  lemma FailedKeepsSet(w: World, e: Session, l: Loop)
    requires Left(e, Ids(l.base, l.base + l.devices))
    ensures e.state == FAILED ==> LoopEnded(w, e, l).hasSet && !LoopEnded(w, e, l).closed
  {
    hide Watched;
    ReleasingObeys(e, l.base, l.devices, l.devices);
  }

  // ----- which devices a run opens and releases

  function OpenCalls(base: nat, opens: seq<Hresult>, k: nat): seq<Event> {
    seq(k, j requires 0 <= j < k => OpenDevice(base + j, OpenAnswer(opens, j)))
  }

  function ReleaseCalls(base: nat, k: nat): seq<Event> {
    seq(k, j requires 0 <= j < k => ReleaseDevice(base + j))
  }

  lemma {:induction false} OpeningSelects(s: Session, opens: seq<Hresult>, k: nat)
    requires OpenedUpTo(s, opens, k).1
    ensures var o := OpenedUpTo(s, opens, k).0;
      && o.devicesOpened == s.devicesOpened + k
      && Select(o.trace, Opening) == Select(s.trace, Opening) + OpenCalls(s.devicesOpened, opens, k)
  {
    hide Select;
    if k > 0 {
      OpeningSelects(s, opens, k - 1);
      var p := OpenedUpTo(s, opens, k - 1).0;
      var e := OpenDevice(p.devicesOpened, OpenAnswer(opens, k - 1));
      SelectNext(p.trace, e, Opening);
      assert OpenCalls(s.devicesOpened, opens, k) == OpenCalls(s.devicesOpened, opens, k - 1) + [e];
    }
  }

  lemma {:induction false} ReleasingSelects(s: Session, base: nat, k: nat)
    ensures var r := ReleasedUpTo(s, base, k);
      Select(r.trace, Releasing) == Select(s.trace, Releasing) + ReleaseCalls(base, k)
  {
    hide Select;
    if k > 0 {
      ReleasingSelects(s, base, k - 1);
      var p := ReleasedUpTo(s, base, k - 1);
      SelectNext(p.trace, ReleaseDevice(base + k - 1), Releasing);
      assert ReleaseCalls(base, k) == ReleaseCalls(base, k - 1) + [ReleaseDevice(base + k - 1)];
    }
  }

  lemma EndingSelects(w: World, s: Session, l: Loop)
    requires s.state == FLUSHING ==> s.hasSet && !s.closed
    ensures var e := LoopEnded(w, s, l);
      Select(e.trace, Releasing) == Select(s.trace, Releasing) + ReleaseCalls(l.base, l.devices)
        + if s.state == FLUSHING then [CloseSet, ReleaseSet] else []
  {
    hide Select, ReleasedUpTo, SinkModel.Drained;
    ReleasingSelects(s, l.base, l.devices);
    ReleasingFacts(s, l.base, l.devices);
    var r := ReleasedUpTo(s, l.base, l.devices);
    SelectNext(r.trace, FlushSink, Releasing);
    var f := r.trace + [FlushSink];
    SelectNext(f, CloseSet, Releasing);
    SelectNext(f + [CloseSet], ReleaseSet, Releasing);
  }

  lemma {:induction false} ServeOpensNone(w: World, s: Session, l: Loop, i: nat, script: seq<Reply>)
    ensures Select(Serve(w, s, l, i, script).0.trace, Opening) == Select(s.trace, Opening)
    decreases |script|
  {
    hide Turn, Select;
    if script != [] {
      var (t, running) := Turn(w, s, l, l.base + i, script[0]);
      TurnGrows(w, s, l, l.base + i, script[0]);
      SelectNext(s.trace, GetCommand(l.base + i, script[0]), Opening);
      GrownSelects(s.trace + [GetCommand(l.base + i, script[0])], t.trace,
        if EndsSession(script[0]) then {Flushing} else if Failed(script[0].hr) then {Warning} else {Working}, Opening);
      if running {
        ServeOpensNone(w, t, l, Next(l, i), script[1..]);
      }
    }
  }

  /** A run opens the number of devices `connect` was told, or one if that was not positive, each once
      and in order; and it releases exactly those, in that order, before it gives up the set. */
  lemma {:induction false} RunOpensAndReleases(w: World, s: Session, opens: seq<Hresult>, script: seq<Reply>)
    requires AtRest(s) && s.state == STREAMING
    requires var n := if s.deviceCount > 0 then s.deviceCount else 1;
      forall j: nat :: j < n ==> !Failed(OpenAnswer(opens, j))
    ensures var t := Processed(w, s, opens, script);
      var n := if s.deviceCount > 0 then s.deviceCount else 1;
      && Select(t.trace, Opening) == Select(s.trace, Opening) + OpenCalls(s.devicesOpened, opens, n)
      && Select(t.trace, Releasing) == Select(s.trace, Releasing) + ReleaseCalls(s.devicesOpened, n)
           + if t.state == CLOSED then [CloseSet, ReleaseSet] else []
  {
    hide Serve, OpenedUpTo, LoopEnded, Select, Watched;
    var n := DeviceTotal(s.deviceCount);
    OpeningObeys(s, opens, n);
    OpeningSelects(s, opens, n);
    OpeningFacts(s, opens, n);
    var o := OpenedUpTo(s, opens, n).0;
    GrownSelects(s.trace, o.trace, {Opening}, Releasing);
    var l := LoopOf(w, s, o);
    var b := LoopBegun(w, o);
    var whole := script + [GONE];
    ServeStops(w, b, l, 0, script, GONE);
    ServeOpensNone(w, b, l, 0, whole);
    ServeFlushes(w, b, l, 0, whole);
    ServeObeys(w, b, l, 0, whole);
    var e := Serve(w, b, l, 0, whole).0;
    EndingFacts(w, e, l);
    GrownSelects(e.trace, LoopEnded(w, e, l).trace, {Releasing, Flushing}, Opening);
    EndingSelects(w, e, l);
    LoopEndedObeys(w, e, l);
  }
}
