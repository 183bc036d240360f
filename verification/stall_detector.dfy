/** What the stall warnings of the loop mean, and what the detector remembers between timeouts. */
module StallDetector {
  import opened Words
  import opened VdiProtocol
  import SinkModel
  import opened Timers
  import opened Sessions
  import opened RunTiming
  import opened TurnFacts

  lemma {:induction false} ServeKeepsView(w: World, s: Session, l: Loop, i: nat, script: seq<Reply>)
    requires s.state == STREAMING && SeesNoProgress(s) && Serve(w, s, l, i, script).1
    ensures SeesNoProgress(Serve(w, s, l, i, script).0)
    decreases |script|
  {
    hide Turn, SeesNoProgress;
    if script != [] {
      TurnOutcome(w, s, l, l.base + i, script[0]);
      ServeKeepsView(w, Turn(w, s, l, l.base + i, script[0]).0, l, Next(l, i), script[1..]);
    }
  }

  /** A timeout warns exactly when a window has passed since the last warning or the start (and that
      time was not 0) and the remembered total is the current one. If only the window has passed it
      brings the remembered total up to date instead. One that is not late leaves the window where
      it began, or begins it if it never did. */
  lemma {:induction false} TimeoutWarnsIff(w: World, s: Session, l: Loop, dev: nat, timeout: Reply)
    requires timeout.hr == VD_E_TIMEOUT
    ensures var now := w.clock(s.ticks + 1);
      var u := Turn(w, s, l, dev, timeout).0;
      var late := s.lastStallWarnUs != 0 && Sub64(now, s.lastStallWarnUs) >= STALL_WINDOW;
      && Warnings(u.trace) == Warnings(s.trace) + (if late && SeesNoProgress(s) then [now] else [])
      && (late ==> SeesNoProgress(u) && u.lastStallWarnUs == now)
      && (!late ==>
           && u.lastBytesTotal == s.lastBytesTotal
           && u.lastStallWarnUs == if s.lastStallWarnUs == 0 then now else s.lastStallWarnUs)
  {
    hide Warnings, SinkModel.Drained;
    var g := Polled(w, s, dev, timeout);
    WarningsNext(s, GetCommand(dev, timeout));
    WarningsNext(g, StallWarning(w.clock(s.ticks + 1)));
  }

  /** In a loop begun before any byte was counted, a timeout warns exactly when a window has passed
      since the last warning or the start (and that time was not 0), however many bytes the turns
      in between delivered. */
  lemma FirstRunWarnsByTimeAlone(w: World, s: Session, l: Loop, turns: seq<Reply>, dev: nat, timeout: Reply)
    requires s.state == STREAMING && s.counters.totalBytes == 0
    requires Serve(w, LoopBegun(w, s), l, 0, turns).1 && timeout.hr == VD_E_TIMEOUT
    ensures var t := Serve(w, LoopBegun(w, s), l, 0, turns).0;
      var now := w.clock(t.ticks + 1);
      var u := Turn(w, t, l, dev, timeout).0;
      (|Warnings(u.trace)| == |Warnings(t.trace)| + 1) <==>
        t.lastStallWarnUs != 0 && Sub64(now, t.lastStallWarnUs) >= STALL_WINDOW
  {
    hide Serve, Warnings, Turn;
    ServeKeepsView(w, LoopBegun(w, s), l, 0, turns);
    TimeoutWarnsIff(w, Serve(w, LoopBegun(w, s), l, 0, turns).0, l, dev, timeout);
  }

  /** When a run last warned: its last warning after the first `past` ones, or else its start. */
  function LastWarning(trace: seq<Event>, past: nat, startUs: u64): u64 {
    var ws := Warnings(trace);
    if |ws| > past then ws[|ws| - 1] else startUs
  }

  /** The detector's memory agrees with the trace. */
  ghost predicate Remembers(w: World, s: Session, startUs: u64, past: nat) {
    && SeesNoProgress(s) && past <= |Warnings(s.trace)|
    && s.lastStallWarnUs == LastWarning(s.trace, past, startUs)
    && 0 < s.lastStallWarnUs <= w.clock(s.ticks)
  }

  lemma TurnRemembers(w: World, s: Session, l: Loop, dev: nat, reply: Reply, startUs: u64, past: nat)
    requires Monotone(w.clock) && s.state == STREAMING && Remembers(w, s, startUs, past)
    requires Turn(w, s, l, dev, reply).1
    ensures Remembers(w, Turn(w, s, l, dev, reply).0, startUs, past)
  {
    hide Warnings, Handle, SinkModel.Drained, Grown;
    var g := Polled(w, s, dev, reply);
    var t := Turn(w, s, l, dev, reply).0;
    assert w.clock(s.ticks) <= w.clock(s.ticks + 1) <= w.clock(g.ticks);
    TurnOutcome(w, s, l, dev, reply);
    WarningsNext(s, GetCommand(dev, reply));
    if Failed(reply.hr) {
      TimeoutWarnsIff(w, s, l, dev, reply);
    } else if reply.cmd.Some? {
      HandleFacts(w, g, l, dev, reply.cmd.value, reply.completion, s.ticks);
      WarningsGrown(g.trace, t.trace, {Working});
      assert w.clock(g.ticks) <= w.clock(t.ticks);
    }
  }

  lemma {:induction false} ServeRemembers(
    w: World, s: Session, l: Loop, i: nat, turns: seq<Reply>, startUs: u64, past: nat)
    requires Monotone(w.clock) && s.state == STREAMING && Remembers(w, s, startUs, past)
    requires Serve(w, s, l, i, turns).1
    ensures Remembers(w, Serve(w, s, l, i, turns).0, startUs, past)
    decreases |turns|
  {
    hide Turn, Remembers;
    if turns != [] {
      TurnRemembers(w, s, l, l.base + i, turns[0], startUs, past);
      TurnOutcome(w, s, l, l.base + i, turns[0]);
      ServeRemembers(w, Turn(w, s, l, l.base + i, turns[0]).0, l, Next(l, i), turns[1..], startUs, past);
    }
  }

  /** With a clock that never goes back and did not start at 0, no warning of such a run is missed:
      a timeout warns exactly when 60 seconds have passed since the last warning in the trace, or
      since the start of the run if it has none. */
  lemma {:induction false} FirstRunWarnsWhenDue(
    w: World, s: Session, l: Loop, turns: seq<Reply>, dev: nat, timeout: Reply)
    requires Monotone(w.clock) && w.clock(s.ticks) != 0
    requires s.state == STREAMING && s.counters.totalBytes == 0
    requires Serve(w, LoopBegun(w, s), l, 0, turns).1 && timeout.hr == VD_E_TIMEOUT
    ensures var t := Serve(w, LoopBegun(w, s), l, 0, turns).0;
      var now := w.clock(t.ticks + 1);
      var since := LastWarning(t.trace, |Warnings(s.trace)|, w.clock(s.ticks));
      Warnings(Turn(w, t, l, dev, timeout).0.trace) ==
        Warnings(t.trace) + if now - since >= 60_000_000 then [now] else []
  {
    hide Serve, Warnings, Turn;
    var b := LoopBegun(w, s);
    assert w.clock(s.ticks) <= w.clock(s.ticks + 1);
    ServeRemembers(w, b, l, 0, turns, w.clock(s.ticks), |Warnings(s.trace)|);
    var t := Serve(w, b, l, 0, turns).0;
    assert w.clock(t.ticks) <= w.clock(t.ticks + 1);
    TimeoutWarnsIff(w, t, l, dev, timeout);
  }

  predicate IsLate(w: World, s: Session) {
    s.lastStallWarnUs != 0 && Sub64(w.clock(s.ticks + 1), s.lastStallWarnUs) >= STALL_WINDOW
  }

  /** No write is handed out in these turns, and none of their timeouts comes a window late. */
  predicate IdleTurns(w: World, s: Session, l: Loop, i: nat, turns: seq<Reply>)
    decreases |turns|
  {
    turns == [] ||
    (&& !HandsOutWrite(turns[0])
     && (turns[0].hr == VD_E_TIMEOUT ==> !IsLate(w, s))
     && IdleTurns(w, Turn(w, s, l, l.base + i, turns[0]).0, l, Next(l, i), turns[1..]))
  }

  /** The detector as a loop that was entered again leaves it until a chunk arrives. */
  predicate Forgetful(s: Session) {
    s.lastBytesTotal == 0 && s.counters.totalBytes != 0
  }

  lemma IdleTurnForgets(w: World, s: Session, l: Loop, dev: nat, reply: Reply)
    requires Forgetful(s) && !HandsOutWrite(reply) && (reply.hr == VD_E_TIMEOUT ==> !IsLate(w, s))
    requires Turn(w, s, l, dev, reply).1
    ensures var t := Turn(w, s, l, dev, reply).0;
      Forgetful(t) && Warnings(t.trace) == Warnings(s.trace)
  {
    hide Handle, Warnings, SinkModel.Drained, Grown;
    var g := Polled(w, s, dev, reply);
    WarningsNext(s, GetCommand(dev, reply));
    if !Failed(reply.hr) && reply.cmd.Some? {
      HandleFacts(w, g, l, dev, reply.cmd.value, reply.completion, s.ticks);
      WarningsGrown(g.trace, Turn(w, s, l, dev, reply).0.trace, {Working});
    }
  }

  lemma {:induction false} IdleTurnsForget(w: World, s: Session, l: Loop, i: nat, turns: seq<Reply>)
    requires Forgetful(s) && IdleTurns(w, s, l, i, turns) && Serve(w, s, l, i, turns).1
    ensures var t := Serve(w, s, l, i, turns).0;
      Forgetful(t) && Warnings(t.trace) == Warnings(s.trace)
    decreases |turns|
  {
    hide Turn, Warnings, Forgetful;
    if turns != [] {
      IdleTurnForgets(w, s, l, l.base + i, turns[0]);
      IdleTurnsForget(w, Turn(w, s, l, l.base + i, turns[0]).0, l, Next(l, i), turns[1..]);
    }
  }

  /** A loop entered again after bytes were counted has forgotten the total: until a chunk arrives
      its first late timeout never warns, whatever idle turns came before, although nothing has
      moved. It only brings the remembered total up to date. */
  lemma {:induction false} ReentryMissesOneWindow(
    w: World, s: Session, l: Loop, turns: seq<Reply>, dev: nat, timeout: Reply)
    requires s.counters.totalBytes != 0 && timeout.hr == VD_E_TIMEOUT
    requires IdleTurns(w, LoopBegun(w, s), l, 0, turns) && Serve(w, LoopBegun(w, s), l, 0, turns).1
    ensures var t := Serve(w, LoopBegun(w, s), l, 0, turns).0;
      var u := Turn(w, t, l, dev, timeout).0;
      && Warnings(u.trace) == Warnings(s.trace)
      && (IsLate(w, t) ==> SeesNoProgress(u) && u.lastStallWarnUs == w.clock(t.ticks + 1))
  {
    hide Warnings, Turn, Serve;
    IdleTurnsForget(w, LoopBegun(w, s), l, 0, turns);
    TimeoutWarnsIff(w, Serve(w, LoopBegun(w, s), l, 0, turns).0, l, dev, timeout);
  }
}
