/** What the parts of a run can and cannot do: to the trace, the clock, the state, and the stall
    detector's memory. */
module TurnFacts {
  import opened Words
  import opened VdiProtocol
  import opened Sessions
  import SinkModel
  import FaultInjectors

  // ----- kinds of events

  datatype Kind = SettingUp | Opening | Polling | Working | Flushing | Warning | Releasing

  function KindOf(e: Event): Kind {
    match e
    case OpenDevice(_, _) => Opening
    case GetCommand(_, _) => Polling
    case StallWarning(_) => Warning
    case FlushSink => Flushing
    case ReleaseDevice(_) => Releasing
    case CloseSet => Releasing
    case ReleaseSet => Releasing
    case CreateSet(_) => SettingUp
    case ConfigureSet(_) => SettingUp
    case GetConfiguration(_) => SettingUp
    case _ => Working
  }

  /** The trace `b` is `a` with nothing but events of these kinds after it. */
  predicate Grown(a: seq<Event>, b: seq<Event>, kinds: set<Kind>) {
    a <= b && forall k :: |a| <= k < |b| ==> KindOf(b[k]) in kinds
  }

  /** The events of one kind, in order. */
  function Select(trace: seq<Event>, kind: Kind): seq<Event> {
    if trace == [] then []
    else
      var e := trace[|trace| - 1];
      Select(trace[..|trace| - 1], kind) + if KindOf(e) == kind then [e] else []
  }

  lemma SelectNext(trace: seq<Event>, e: Event, kind: Kind)
    ensures Select(trace + [e], kind) == Select(trace, kind) + if KindOf(e) == kind then [e] else []
  {
    assert (trace + [e])[..|trace|] == trace;
  }

  lemma {:induction false} SelectIsOfKind(trace: seq<Event>, kind: Kind)
    ensures forall k :: 0 <= k < |Select(trace, kind)| ==> KindOf(Select(trace, kind)[k]) == kind
  {
    if trace != [] {
      SelectIsOfKind(trace[..|trace| - 1], kind);
    }
  }

  lemma {:induction false} GrownSelects(a: seq<Event>, b: seq<Event>, kinds: set<Kind>, kind: Kind)
    requires Grown(a, b, kinds) && kind !in kinds
    ensures Select(b, kind) == Select(a, kind)
    decreases |b|
  {
    if a != b {
      assert b == b[..|b| - 1] + [b[|b| - 1]];
      GrownSelects(a, b[..|b| - 1], kinds, kind);
    }
  }

  // ----- replies

  /** The stall detector has nothing to compare: its remembered total is the current one. */
  predicate SeesNoProgress(s: Session) {
    s.lastBytesTotal == s.counters.totalBytes
  }

  predicate EndsSession(r: Reply) {
    r.hr == VD_E_CLOSE || r.hr == VD_E_EOF
  }

  predicate AsksToClose(r: Reply) {
    !Failed(r.hr) && r.cmd.Some? && r.cmd.value.code == VDC_CLOSE
  }

  /** The replies that end the loop whatever else happens. */
  predicate Stops(r: Reply) {
    (Failed(r.hr) && r.hr != VD_E_TIMEOUT) || AsksToClose(r)
  }

  predicate HandsOutWrite(r: Reply) {
    !Failed(r.hr) && r.cmd.Some? && r.cmd.value.code == VDC_WRITE
  }

  // ----- the stages of a turn

  /** From s to t the client worked on a command: it noted only that, and time went on. */
  ghost predicate WorkedOn(s: Session, t: Session) {
    && Grown(s.trace, t.trace, {Working})
    && s.ticks <= t.ticks && s.counters.timings <= t.counters.timings
    && t.lastCommandUs == s.lastCommandUs && t.lastStallWarnUs == s.lastStallWarnUs
  }

  lemma StoreFacts(w: World, s: Session, dev: nat, cmd: Command)
    ensures var (t, running, us) := StoreChunk(w, s, dev, cmd);
      && WorkedOn(s, t)
      && t.state == (if running then s.state else FAILED) && (running ==> SeesNoProgress(t))
  {
    hide SinkModel.Written;
  }

  lemma AcknowledgeFacts(
    w: World, s: Session, l: Loop, dev: nat, cmd: Command, hr: Hresult, fetched: nat, sinkUs: u64)
    ensures var (t, running) := Acknowledge(w, s, l, dev, cmd, hr, fetched, sinkUs);
      && WorkedOn(s, t)
      && t.state == (if running then s.state else FAILED)
      && t.lastBytesTotal == s.lastBytesTotal && t.counters.totalBytes == s.counters.totalBytes
  {
    hide FaultInjectors.ChunkCompleted, MakeTiming;
  }

  lemma HandleFacts(w: World, s: Session, l: Loop, dev: nat, cmd: Command, completion: Hresult, fetched: nat)
    ensures var (t, running) := Handle(w, s, l, dev, cmd, completion, fetched);
      && WorkedOn(s, t)
      && t.state == (if running || cmd.code == VDC_CLOSE then s.state else FAILED)
      && (cmd.code == VDC_CLOSE ==> !running)
      && (running && SeesNoProgress(s) ==> SeesNoProgress(t))
      && (cmd.code != VDC_WRITE ==>
           t.lastBytesTotal == s.lastBytesTotal && t.counters.totalBytes == s.counters.totalBytes)
  {
    hide StoreChunk, Acknowledge;
    var d := s.(ticks := s.ticks + 2);
    StoreFacts(w, d, dev, cmd);
    var (t, running, sinkUs) := StoreChunk(w, d, dev, cmd);
    AcknowledgeFacts(w, t, l, dev, cmd, completion, fetched, sinkUs);
    AcknowledgeFacts(w, d, l, dev, cmd, completion, fetched, 0);
  }

  /** A reply that ends the loop does so in any session. */
  lemma StopReplyStops(w: World, s: Session, l: Loop, dev: nat, reply: Reply)
    ensures Stops(reply) ==> !Turn(w, s, l, dev, reply).1
  {
    hide Handle, SinkModel.Drained;
    if AsksToClose(reply) {
      HandleFacts(w, Polled(w, s, dev, reply), l, dev, reply.cmd.value, reply.completion, s.ticks);
    }
  }

  /** A turn keeps streaming while it runs, and runs on only for a reply that does not end the loop;
      when it stops, the reply says which way. Either way the time of the last GetCommand is
      remembered. */
  lemma {:induction false} TurnOutcome(w: World, s: Session, l: Loop, dev: nat, reply: Reply)
    requires s.state == STREAMING
    ensures var (t, running) := Turn(w, s, l, dev, reply);
      if running then
        && t.state == STREAMING && !Stops(reply)
        && (SeesNoProgress(s) ==> SeesNoProgress(t))
      else
        && (t.state == FLUSHING <==> EndsSession(reply))
        && (t.state == STREAMING <==> AsksToClose(reply))
        && t.state in {FLUSHING, STREAMING, FAILED}
    ensures Turn(w, s, l, dev, reply).0.lastCommandUs == w.clock(s.ticks + 1)
  {
    hide Handle, SinkModel.Drained, Grown;
    if !Failed(reply.hr) && reply.cmd.Some? {
      HandleFacts(w, Polled(w, s, dev, reply), l, dev, reply.cmd.value, reply.completion, s.ticks);
    }
  }

  /** The trace of a turn: its poll; then work on a command, or a flush exactly for a reply that
      ends the session, or possibly a warning. */
  lemma TurnGrows(w: World, s: Session, l: Loop, dev: nat, reply: Reply)
    ensures var t := Turn(w, s, l, dev, reply).0;
      && Grown(s.trace + [GetCommand(dev, reply)], t.trace,
           if EndsSession(reply) then {Flushing} else if Failed(reply.hr) then {Warning} else {Working})
      && (EndsSession(reply) ==> t.trace == s.trace + [GetCommand(dev, reply)] + [FlushSink])
  {
    hide Handle, SinkModel.Drained;
    if !Failed(reply.hr) && reply.cmd.Some? {
      HandleFacts(w, Polled(w, s, dev, reply), l, dev, reply.cmd.value, reply.completion, s.ticks);
    }
  }

  // ----- around the loop

  /** From s to t nothing was read from the clock, counted or timed. */
  ghost predicate Timeless(s: Session, t: Session) {
    t.ticks == s.ticks && t.counters == s.counters && t.lastStallWarnUs == s.lastStallWarnUs
  }

  lemma {:induction false} OpeningFacts(s: Session, opens: seq<Hresult>, k: nat)
    ensures var o := OpenedUpTo(s, opens, k).0;
      && Timeless(s, o) && Grown(s.trace, o.trace, {Opening})
      && o.sink == s.sink && o.injector == s.injector && o.closed == s.closed
  {
    if k > 0 {
      OpeningFacts(s, opens, k - 1);
    }
  }

  lemma {:induction false} ReleasingFacts(s: Session, base: nat, k: nat)
    ensures var r := ReleasedUpTo(s, base, k);
      && Timeless(s, r) && Grown(s.trace, r.trace, {Releasing})
      && r.sink == s.sink && r.state == s.state && r.hasSet == s.hasSet && r.closed == s.closed
      && (k > 0 ==> |s.trace| < |r.trace| && r.trace[|s.trace|] == ReleaseDevice(base))
  {
    if k > 0 {
      ReleasingFacts(s, base, k - 1);
    }
  }

  lemma EndingFacts(w: World, s: Session, l: Loop)
    ensures var e := LoopEnded(w, s, l);
      && Timeless(s, e) && Grown(s.trace, e.trace, {Releasing, Flushing})
      && (s.state != FLUSHING ==> e.state == s.state)
      && (l.devices > 0 ==> |s.trace| < |e.trace| && e.trace[|s.trace|] == ReleaseDevice(l.base))
  {
    hide SinkModel.Drained, ReleasedUpTo;
    ReleasingFacts(s, l.base, l.devices);
  }
}
