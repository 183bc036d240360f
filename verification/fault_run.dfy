/** An armed fault injector in a running session. */
module FaultRun {
  import opened Words
  import opened VdiProtocol
  import opened FaultInjectors
  import opened Sessions
  import opened TurnFacts
  import opened LifetimeRules
  import opened Ledgers
  import SinkModel

  /** From s to t: the injector advanced by the successful completions in between, and a fault is in
      the trace exactly if that brought it to its limit, which stopped the run. */
  ghost predicate Advances(s: Session, t: Session, running: bool) {
    var a := Ledgered(s.trace);
    var b := Ledgered(t.trace);
    && |a.completions| <= |b.completions|
    && t.injector == s.injector.(counter := t.injector.counter)
    && t.injector.counter == s.injector.counter + (|b.completions| - |a.completions|) <= s.injector.failAfter
    && (if t.injector.counter == s.injector.failAfter
        then b.injected == a.injected + 1 && !running && t.state == FAILED
        else b.injected == a.injected)
  }

  predicate Waiting(i: Injector) {
    i.counter < i.failAfter
  }

  lemma StoreAdvancesNot(w: World, s: Session, dev: nat, cmd: Command)
    ensures var t := StoreChunk(w, s, dev, cmd).0;
      && t.injector == s.injector
      && Ledgered(t.trace).completions == Ledgered(s.trace).completions
      && Ledgered(t.trace).injected == Ledgered(s.trace).injected
  {
    hide Ledgered, SinkModel.Written;
    var e := Counted(cmd.size, Lent(s));
    var c := CountChunk(s, cmd.size);
    LedgerNext(s, e);
    assert c.trace == s.Noted(e).trace;
    LedgerNext(c, Store(dev, cmd, true));
    LedgerNext(c, Store(dev, cmd, false));
  }

  lemma AcknowledgeAdvances(
    w: World, s: Session, l: Loop, dev: nat, cmd: Command, hr: Hresult, fetched: nat, sinkUs: u64)
    requires Waiting(s.injector)
    ensures var (t, running) := Acknowledge(w, s, l, dev, cmd, hr, fetched, sinkUs); Advances(s, t, running)
  {
    hide Ledgered, MakeTiming;
    LedgerNext(s, Complete(dev, cmd, hr));
    LedgerNext(s.Noted(Complete(dev, cmd, hr)), Injected);
  }

  lemma HandleAdvances(w: World, s: Session, l: Loop, dev: nat, cmd: Command, completion: Hresult, fetched: nat)
    requires Waiting(s.injector)
    ensures var (t, running) := Handle(w, s, l, dev, cmd, completion, fetched); Advances(s, t, running)
  {
    hide Ledgered, StoreChunk, Acknowledge;
    var d := s.(ticks := s.ticks + 2);
    if cmd.code == VDC_WRITE {
      StoreAdvancesNot(w, d, dev, cmd);
      var (t, running, sinkUs) := StoreChunk(w, d, dev, cmd);
      AcknowledgeAdvances(w, t, l, dev, cmd, completion, fetched, sinkUs);
    } else {
      AcknowledgeAdvances(w, d, l, dev, cmd, completion, fetched, 0);
    }
  }

  lemma TurnAdvances(w: World, s: Session, l: Loop, dev: nat, reply: Reply)
    requires Waiting(s.injector)
    ensures var (t, running) := Turn(w, s, l, dev, reply); Advances(s, t, running)
  {
    hide Ledgered, Handle, SinkModel.Drained;
    var g := Polled(w, s, dev, reply);
    LedgerNext(s, GetCommand(dev, reply));
    if Failed(reply.hr) {
      LedgerNext(g, FlushSink);
      LedgerNext(g, StallWarning(w.clock(s.ticks + 1)));
    } else if reply.cmd.Some? {
      HandleAdvances(w, g, l, dev, reply.cmd.value, reply.completion, s.ticks);
    }
  }

  /** In a loop entered with an armed injector that has m completions to go, at most m commands are
      completed successfully; the m-th, if it comes, injects the one fault, and the run stops there
      as FAILED. Without it no fault is injected. */
  lemma {:induction false} ArmedRunStopsOnTime(w: World, s: Session, l: Loop, i: nat, script: seq<Reply>)
    requires Waiting(s.injector)
    ensures var (t, running) := Serve(w, s, l, i, script); Advances(s, t, running)
    decreases |script|
  {
    hide Ledgered, Turn;
    if script != [] {
      TurnAdvances(w, s, l, l.base + i, script[0]);
      var (t, running) := Turn(w, s, l, l.base + i, script[0]);
      if running {
        ArmedRunStopsOnTime(w, t, l, Next(l, i), script[1..]);
      }
    }
  }

  // ----- without a count

  /** From s to t no fault was injected and the injector did not move. */
  ghost predicate Unharmed(s: Session, t: Session) {
    t.injector == s.injector && Ledgered(t.trace).injected == Ledgered(s.trace).injected
  }

  lemma AcknowledgeUnharmed(
    w: World, s: Session, l: Loop, dev: nat, cmd: Command, hr: Hresult, fetched: nat, sinkUs: u64)
    requires s.injector.failAfter == 0
    ensures Unharmed(s, Acknowledge(w, s, l, dev, cmd, hr, fetched, sinkUs).0)
  {
    hide Ledgered, MakeTiming;
    LedgerNext(s, Complete(dev, cmd, hr));
  }

  lemma TurnUnharmed(w: World, s: Session, l: Loop, dev: nat, reply: Reply)
    requires s.injector.failAfter == 0
    ensures Unharmed(s, Turn(w, s, l, dev, reply).0)
  {
    hide Ledgered, StoreChunk, Acknowledge, SinkModel.Drained;
    var g := Polled(w, s, dev, reply);
    LedgerNext(s, GetCommand(dev, reply));
    if Failed(reply.hr) {
      LedgerNext(g, FlushSink);
      LedgerNext(g, StallWarning(w.clock(s.ticks + 1)));
    } else if reply.cmd.Some? {
      var cmd := reply.cmd.value;
      var d := g.(ticks := g.ticks + 2);
      StoreAdvancesNot(w, d, dev, cmd);
      var (t, running, sinkUs) := StoreChunk(w, d, dev, cmd);
      AcknowledgeUnharmed(w, t, l, dev, cmd, reply.completion, s.ticks, sinkUs);
      AcknowledgeUnharmed(w, d, l, dev, cmd, reply.completion, s.ticks, 0);
    }
  }

  lemma {:induction false} ServeUnharmed(w: World, s: Session, l: Loop, i: nat, script: seq<Reply>)
    requires s.injector.failAfter == 0
    ensures Unharmed(s, Serve(w, s, l, i, script).0)
    decreases |script|
  {
    hide Turn, Ledgered;
    if script != [] {
      TurnUnharmed(w, s, l, l.base + i, script[0]);
      var (t, running) := Turn(w, s, l, l.base + i, script[0]);
      if running {
        ServeUnharmed(w, t, l, Next(l, i), script[1..]);
      }
    }
  }

  // ----- a whole call of process_commands

  lemma {:induction false} GrownLedger(a: seq<Event>, b: seq<Event>, kinds: set<Kind>)
    requires Grown(a, b, kinds) && Working !in kinds
    ensures Ledgered(b) == Ledgered(a)
    decreases |b|
  {
    if a != b {
      assert b == b[..|b| - 1] + [b[|b| - 1]];
      GrownLedger(a, b[..|b| - 1], kinds);
    }
  }

  /** A client armed with n > 0 before a run completes at most n commands in it; the n-th, if it comes,
      is followed by the one fault and the run is FAILED, and otherwise there is none. After a
      reset, or armed with 0, a run has no fault at all. A single-shot request is on record after the
      call that makes it. */
  lemma {:induction false} ArmedCallStopsOnTime(
    w: World, s: Session, n: u64, opens: seq<Hresult>, script: seq<Reply>)
    requires AtRest(s) && s.state == STREAMING
    ensures var t := Processed(w, Apply(w, s, ArmFault(n)), opens, script);
      var done := |Ledgered(t.trace).completions| - |Ledgered(s.trace).completions|;
      var faults := Ledgered(t.trace).injected - Ledgered(s.trace).injected;
      if n == 0 then faults == 0
      else done <= n && (if done == n then faults == 1 && t.state == FAILED else faults == 0)
    ensures var t := Processed(w, Apply(w, s, ResetFault), opens, script);
      Ledgered(t.trace).injected == Ledgered(s.trace).injected
    ensures AskedToFail(Apply(w, s, Call.FailNext).injector).1
  {
    hide Serve, OpenedUpTo, LoopEnded, Ledgered, AtRest;
    RunFaults(w, Apply(w, s, ArmFault(n)), opens, script);
    RunFaults(w, Apply(w, s, ResetFault), opens, script);
  }

  lemma RunFaults(w: World, s: Session, opens: seq<Hresult>, script: seq<Reply>)
    requires s.state == STREAMING
    ensures var t := Processed(w, s, opens, script);
      && (s.injector.failAfter == 0 ==> Ledgered(t.trace).injected == Ledgered(s.trace).injected)
      && (Waiting(s.injector) && s.injector.counter == 0 ==>
           var done := |Ledgered(t.trace).completions| - |Ledgered(s.trace).completions|;
           var faults := Ledgered(t.trace).injected - Ledgered(s.trace).injected;
           && done <= s.injector.failAfter
           && (if done == s.injector.failAfter then faults == 1 && t.state == FAILED else faults == 0))
  {
    hide Serve, OpenedUpTo, LoopEnded, Ledgered;
    var n := DeviceTotal(s.deviceCount);
    OpeningFacts(s, opens, n);
    var (o, ok) := OpenedUpTo(s, opens, n);
    GrownLedger(s.trace, o.trace, {Opening});
    if s.hasSet && ok {
      var l := LoopOf(w, s, o);
      var b := LoopBegun(w, o);
      var e := Serve(w, b, l, 0, script + [GONE]).0;
      EndingFacts(w, e, l);
      GrownLedger(e.trace, LoopEnded(w, e, l).trace, {Releasing, Flushing});
      if s.injector.failAfter == 0 {
        ServeUnharmed(w, b, l, 0, script + [GONE]);
      } else if Waiting(b.injector) {
        ArmedRunStopsOnTime(w, b, l, 0, script + [GONE]);
      }
    }
  }
}
