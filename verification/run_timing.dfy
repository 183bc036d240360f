/** Time inside a run of the command loop: chunk timings, stall warnings. */
module RunTiming {
  import opened Words
  import opened VdiProtocol
  import SinkModel
  import opened Timers
  import opened MetricsModel
  import opened Percentiles
  import opened Sessions
  import opened TurnFacts

  // ----- one timing

  function StageSum(t: ChunkTiming): nat {
    t.getcommandUs + t.dispatchUs + t.sinkUs + t.completeUs
  }

  /** The timing of a turn whose readings lie at the clock positions from `first` to before `end`:
      it starts at the first reading, each stage is the time between that stage's own readings, and
      the stages, none of them overlapping, fit in between. */
  ghost predicate TimesTurn(w: World, l: Loop, t: ChunkTiming, first: nat, end: nat) {
    && (end == first + 6 || end == first + 8)
    && t.getcommandUs == w.clock(first + 1) - w.clock(first)
    && t.dispatchUs == w.clock(first + 3) - w.clock(first + 2)
    && t.sinkUs == (if end == first + 8 then w.clock(first + 5) - w.clock(first + 4) else 0)
    && t.completeUs == w.clock(end - 1) - w.clock(end - 2)
    && t.totalUs == StageSum(t)
    && l.startUs + t.timestampUs == w.clock(first)
    && l.startUs + t.timestampUs + t.totalUs <= w.clock(end)
  }

  function SinkTime(w: World, fetched: nat, a: nat): int {
    if a == fetched + 6 then w.clock(fetched + 5) - w.clock(fetched + 4) else 0
  }

  lemma MadeTimingFits(w: World, l: Loop, size: u64, fetched: nat, a: nat, sinkUs: u64)
    requires Monotone(w.clock) && l.startUs <= w.clock(fetched)
    requires (a == fetched + 4 || a == fetched + 6) && sinkUs == SinkTime(w, fetched, a)
    ensures var c := w.clock;
      TimesTurn(w, l, MakeTiming(size, Sub64(c(fetched + 1), c(fetched)), Sub64(c(fetched + 3), c(fetched + 2)),
        sinkUs, Sub64(c(a + 1), c(a)), Sub64(c(fetched), l.startUs)), fetched, a + 2)
  {
    var c := w.clock;
    assert c(fetched) <= c(fetched + 1) <= c(fetched + 2) <= c(fetched + 3) <= c(fetched + 4);
    assert c(fetched + 4) <= c(fetched + 5) <= c(fetched + 6);
    assert c(a) <= c(a + 1) <= c(a + 2);
  }

  lemma AcknowledgeTimes(w: World, s: Session, l: Loop, dev: nat, cmd: Command, hr: Hresult, fetched: nat, sinkUs: u64)
    requires Monotone(w.clock) && l.startUs <= w.clock(fetched)
    requires (s.ticks == fetched + 4 || s.ticks == fetched + 6) && sinkUs == SinkTime(w, fetched, s.ticks)
    ensures var (t, running) := Acknowledge(w, s, l, dev, cmd, hr, fetched, sinkUs);
      && t.ticks == s.ticks + 2
      && (if running
          then exists tm :: t.counters.timings == s.counters.timings + [tm] && TimesTurn(w, l, tm, fetched, t.ticks)
          else t.counters.timings == s.counters.timings)
  {
    hide MakeTiming, TimesTurn, Monotone, Sub64;
    MadeTimingFits(w, l, cmd.size, fetched, s.ticks, sinkUs);
  }

  lemma StoreTimes(w: World, s: Session, dev: nat, cmd: Command)
    requires Monotone(w.clock)
    ensures var (t, running, sinkUs) := StoreChunk(w, s, dev, cmd);
      && s.ticks <= t.ticks && t.counters.timings == s.counters.timings
      && (running ==> t.ticks == s.ticks + 2 && sinkUs == w.clock(s.ticks + 1) - w.clock(s.ticks))
  {
    hide SinkModel.Written;
    assert w.clock(s.ticks) <= w.clock(s.ticks + 1);
  }

  /** A turn that keeps running records one timing, of itself; any other turn records none. */
  ghost predicate RecordsOwnTime(w: World, l: Loop, s: Session, t: Session) {
    && s.ticks < t.ticks
    && (t.counters.timings == s.counters.timings
        || exists tm :: t.counters.timings == s.counters.timings + [tm] && TimesTurn(w, l, tm, s.ticks, t.ticks))
  }

  lemma HandleTimes(w: World, s: Session, g: Session, l: Loop, dev: nat, cmd: Command, completion: Hresult)
    requires Monotone(w.clock) && l.startUs <= w.clock(s.ticks)
    requires g.ticks == s.ticks + 2 && g.counters == s.counters
    ensures RecordsOwnTime(w, l, s, Handle(w, g, l, dev, cmd, completion, s.ticks).0)
  {
    hide StoreChunk, Acknowledge;
    var d := g.(ticks := g.ticks + 2);
    assert w.clock(s.ticks + 3) <= w.clock(d.ticks);
    if cmd.code == VDC_WRITE {
      StoreTimes(w, d, dev, cmd);
      var (t, running, sinkUs) := StoreChunk(w, d, dev, cmd);
      if running {
        AcknowledgeTimes(w, t, l, dev, cmd, completion, s.ticks, sinkUs);
      }
    } else if cmd.code != VDC_CLOSE {
      AcknowledgeTimes(w, d, l, dev, cmd, completion, s.ticks, 0);
    }
  }

  lemma {:induction false} TurnTimes(w: World, s: Session, l: Loop, dev: nat, reply: Reply)
    requires Monotone(w.clock) && l.startUs <= w.clock(s.ticks)
    ensures RecordsOwnTime(w, l, s, Turn(w, s, l, dev, reply).0)
  {
    hide Handle;
    hide SinkModel.Drained;
    if !Failed(reply.hr) && reply.cmd.Some? {
      HandleTimes(w, s, Polled(w, s, dev, reply), l, dev, reply.cmd.value, reply.completion);
    }
  }

  /** A row of the latency table grew by this one value. */
  ghost predicate RowGrew(s: Session, t: Session, stage: Stage, d: int) {
    var before := StageValues(s.counters.timings, stage);
    var after := StageValues(t.counters.timings, stage);
    |after| == |before| + 1 && after[..|before|] == before && after[|before|] == d
  }

  lemma HandleReads(w: World, s: Session, l: Loop, dev: nat, cmd: Command, completion: Hresult, fetched: nat)
    requires Monotone(w.clock) && s.ticks == fetched + 2 && l.startUs <= w.clock(fetched)
    ensures var (t, running) := Handle(w, s, l, dev, cmd, completion, fetched);
      && (!running ==> t.counters.timings == s.counters.timings)
      && (running ==>
           && t.ticks == fetched + (if cmd.code == VDC_WRITE then 8 else 6)
           && |t.counters.timings| == |s.counters.timings| + 1)
  {
    hide StoreChunk, Acknowledge;
    var d := s.(ticks := s.ticks + 2);
    if cmd.code == VDC_WRITE {
      StoreTimes(w, d, dev, cmd);
      var (t, running, sinkUs) := StoreChunk(w, d, dev, cmd);
      if running {
        AcknowledgeTimes(w, t, l, dev, cmd, completion, fetched, sinkUs);
      }
    } else if cmd.code != VDC_CLOSE {
      AcknowledgeTimes(w, d, l, dev, cmd, completion, fetched, 0);
    }
  }

  /** The rows of the latency table follow the clock: every command a turn ran on after adds to each
      row the time between that stage's own two readings, the sink's row being 0 but for a write,
      and their sum to the total's; any other turn adds nothing. */
  lemma {:induction false} TurnFillsRows(w: World, s: Session, l: Loop, dev: nat, reply: Reply)
    requires Monotone(w.clock) && l.startUs <= w.clock(s.ticks)
    ensures var (t, running) := Turn(w, s, l, dev, reply);
      var c, f := w.clock, s.ticks;
      var a := f + if HandsOutWrite(reply) then 6 else 4;
      var sinkUs := if HandsOutWrite(reply) then c(f + 5) - c(f + 4) else 0;
      if running && !Failed(reply.hr) && reply.cmd.Some? then
        && RowGrew(s, t, GetCommandStage, c(f + 1) - c(f))
        && RowGrew(s, t, DispatchStage, c(f + 3) - c(f + 2))
        && RowGrew(s, t, SinkStage, sinkUs)
        && RowGrew(s, t, CompleteStage, c(a + 1) - c(a))
        && RowGrew(s, t, TotalStage, c(f + 1) - c(f) + c(f + 3) - c(f + 2) + sinkUs + c(a + 1) - c(a))
      else
        t.counters.timings == s.counters.timings
  {
    hide Handle, SinkModel.Drained;
    var t := Turn(w, s, l, dev, reply).0;
    if !Failed(reply.hr) && reply.cmd.Some? {
      HandleReads(w, Polled(w, s, dev, reply), l, dev, reply.cmd.value, reply.completion, s.ticks);
      TurnTimes(w, s, l, dev, reply);
    }
  }

  // ----- the same under a performance counter

  /** The clock is a performance counter of this frequency, read at the non-decreasing tick counts
      `raw`, none of them beyond the limit. */
  ghost predicate QpcClock(w: World, freq: u64, start: u64, raw: nat -> u64) {
    && freq > 0
    && (forall i: nat :: start <= raw(i) && raw(i) - start <= TICK_LIMIT)
    && (forall i: nat, j: nat :: i <= j ==> raw(i) <= raw(j))
    && (forall i: nat :: w.clock(i) == QpcNowUs(freq, start, raw(i)))
  }

  lemma QpcClockIsMonotone(w: World, freq: u64, start: u64, raw: nat -> u64)
    requires QpcClock(w, freq, start, raw)
    ensures Monotone(w.clock)
  {
    hide QpcNowUs;
    forall i: nat, j: nat | i <= j
      ensures w.clock(i) <= w.clock(j)
    {
      QpcMonotone(freq, start, raw(i), raw(j));
    }
  }

  /** The ticks a timed turn spent in its stages. */
  function StageTicks(raw: nat -> u64, first: nat, end: nat): int
    requires first + 6 <= end
  {
    (raw(first + 1) - raw(first)) + (raw(first + 3) - raw(first + 2))
      + (if end == first + 8 then raw(first + 5) - raw(first + 4) else 0)
      + (raw(end - 1) - raw(end - 2))
  }

  /** The ticks at the eight readings that bound the stages of a timed turn; without a sink stage
      its two readings fall together. */
  function StageReadings(raw: nat -> u64, first: nat, end: nat): seq<u64>
    requires first + 6 <= end
  {
    var sink := if end == first + 8 then (raw(first + 4), raw(first + 5)) else (raw(first + 3), raw(first + 3));
    [raw(first), raw(first + 1), raw(first + 2), raw(first + 3), sink.0, sink.1, raw(end - 2), raw(end - 1)]
  }

  lemma ReadingsAscend(w: World, first: nat, end: nat, freq: u64, start: u64, raw: nat -> u64)
    requires QpcClock(w, freq, start, raw) && (end == first + 6 || end == first + 8)
    ensures var t := StageReadings(raw, first, end);
      && |t| == 8 && t[7] - start <= TICK_LIMIT
      && forall i, j :: 0 <= i <= j < 8 ==> start <= t[i] <= t[j]
  {
    hide QpcNowUs;
  }

  lemma StageIsDuration(w: World, i: nat, freq: u64, start: u64, raw: nat -> u64)
    requires QpcClock(w, freq, start, raw)
    ensures w.clock(i + 1) - w.clock(i) == QpcDuration(freq, start, raw(i), raw(i + 1))
    ensures QpcDuration(freq, start, raw(i), raw(i)) == 0
  {
    hide QpcNowUs;
    QpcMonotone(freq, start, raw(i), raw(i + 1));
  }

  /** The recorded total in terms of those readings. */
  lemma TotalIsDurations(
    w: World, l: Loop, tm: ChunkTiming, first: nat, end: nat, freq: u64, start: u64, raw: nat -> u64)
    ensures QpcClock(w, freq, start, raw) && TimesTurn(w, l, tm, first, end) ==>
      var t := StageReadings(raw, first, end);
      && tm.totalUs == QpcDuration(freq, start, t[0], t[1]) + QpcDuration(freq, start, t[2], t[3])
                     + QpcDuration(freq, start, t[4], t[5]) + QpcDuration(freq, start, t[6], t[7])
      && StageTicks(raw, first, end) == (t[1] - t[0]) + (t[3] - t[2]) + (t[5] - t[4]) + (t[7] - t[6])
  {
    if QpcClock(w, freq, start, raw) && TimesTurn(w, l, tm, first, end) {
      StageIsDuration(w, first, freq, start, raw);
      StageIsDuration(w, first + 2, freq, start, raw);
      StageIsDuration(w, first + 3, freq, start, raw);
      StageIsDuration(w, first + 4, freq, start, raw);
      StageIsDuration(w, end - 2, freq, start, raw);
      assert freq > 0;
      hide QpcClock, QpcDuration;
    }
  }

  lemma QpcTimingError(
    w: World, l: Loop, tm: ChunkTiming, first: nat, end: nat, freq: u64, start: u64, raw: nat -> u64)
    ensures QpcClock(w, freq, start, raw) && TimesTurn(w, l, tm, first, end) ==>
      var ticks := StageTicks(raw, first, end);
      ticks * MICROS - 4 * freq < tm.totalUs * freq < ticks * MICROS + 4 * freq
  {
    if QpcClock(w, freq, start, raw) && TimesTurn(w, l, tm, first, end) {
      ReadingsAscend(w, first, end, freq, start, raw);
      TotalIsDurations(w, l, tm, first, end, freq, start, raw);
      assert freq > 0;
      var t := StageReadings(raw, first, end);
      var ticks := StageTicks(raw, first, end);
      hide QpcClock, QpcDuration, TimesTurn, StageTicks, StageReadings;
      QpcTotalError(freq, start, t);
    }
  }

  /** With such a counter the total a turn records is within 4 microseconds of the ticks its stages
      took. */
  lemma {:induction false} TurnTimesUnderQpc(
    w: World, s: Session, l: Loop, dev: nat, reply: Reply, freq: u64, start: u64, raw: nat -> u64)
    requires QpcClock(w, freq, start, raw) && l.startUs <= w.clock(s.ticks)
    ensures var t := Turn(w, s, l, dev, reply).0;
      t.counters.timings == s.counters.timings
      || exists tm: ChunkTiming, end: nat ::
           && t.counters.timings == s.counters.timings + [tm]
           && (end == s.ticks + 6 || end == s.ticks + 8) && end == t.ticks
           && var ticks := StageTicks(raw, s.ticks, end);
              ticks * MICROS - 4 * freq < tm.totalUs * freq < ticks * MICROS + 4 * freq
  {
    hide Turn, QpcClock;
    QpcClockIsMonotone(w, freq, start, raw);
    TurnTimes(w, s, l, dev, reply);
    var t := Turn(w, s, l, dev, reply).0;
    if t.counters.timings != s.counters.timings {
      var tm :| t.counters.timings == s.counters.timings + [tm] && TimesTurn(w, l, tm, s.ticks, t.ticks);
      QpcTimingError(w, l, tm, s.ticks, t.ticks, freq, start, raw);
    }
  }

  // ----- the timings of a run

  function SumTotals(timings: seq<ChunkTiming>): nat {
    if timings == [] then 0 else SumTotals(timings[..|timings| - 1]) + timings[|timings| - 1].totalUs
  }

  /** The entries from position `from` on, made since `startUs`, lie one after another before `now`. */
  ghost predicate Spaced(timings: seq<ChunkTiming>, from: nat, startUs: u64, now: u64) {
    && from <= |timings| && startUs <= now
    && (forall i :: from <= i < |timings| ==> timings[i].totalUs == StageSum(timings[i]))
    && (forall i :: from <= i < |timings| ==> startUs + timings[i].timestampUs + timings[i].totalUs <= now)
    && (forall i, j :: from <= i < j < |timings| ==>
          timings[i].timestampUs + timings[i].totalUs <= timings[j].timestampUs)
    && startUs + SumTotals(timings[from..]) <= now
  }

  lemma SpacedGrows(w: World, l: Loop, s: Session, t: Session, from: nat)
    requires Monotone(w.clock) && RecordsOwnTime(w, l, s, t)
    requires Spaced(s.counters.timings, from, l.startUs, w.clock(s.ticks))
    ensures Spaced(t.counters.timings, from, l.startUs, w.clock(t.ticks))
  {
    var a := s.counters.timings;
    assert w.clock(s.ticks) <= w.clock(t.ticks);
    if t.counters.timings != a {
      var tm :| t.counters.timings == a + [tm] && TimesTurn(w, l, tm, s.ticks, t.ticks);
      assert (a + [tm])[from..] == a[from..] + [tm];
      assert (a[from..] + [tm])[..|a[from..]|] == a[from..];
    }
  }

  lemma {:induction false} ServeSpaced(w: World, s: Session, l: Loop, i: nat, script: seq<Reply>, from: nat)
    requires Monotone(w.clock) && Spaced(s.counters.timings, from, l.startUs, w.clock(s.ticks))
    ensures var t := Serve(w, s, l, i, script).0;
      Spaced(t.counters.timings, from, l.startUs, w.clock(t.ticks))
    decreases |script|
  {
    hide Turn, Spaced, RecordsOwnTime;
    if script != [] {
      SpacedStarts(s.counters.timings, from, l.startUs, w.clock(s.ticks));
      var (t, running) := Turn(w, s, l, l.base + i, script[0]);
      TurnTimes(w, s, l, l.base + i, script[0]);
      SpacedGrows(w, l, s, t, from);
      if running {
        ServeSpaced(w, t, l, Next(l, i), script[1..], from);
      }
    }
  }

  lemma SpacedStarts(timings: seq<ChunkTiming>, from: nat, startUs: u64, now: u64)
    requires Spaced(timings, from, startUs, now)
    ensures startUs <= now
  {
  }

  // ----- stall warnings

  const STALL_WINDOW: nat := 60_000_000

  /** The times of the stall warnings in a trace. */
  function Warnings(trace: seq<Event>): seq<u64> {
    var ws := Select(trace, Warning);
    seq(|ws|, k requires 0 <= k < |ws| => if ws[k].StallWarning? then ws[k].at else 0)
  }

  lemma WarningsNext(s: Session, e: Event)
    ensures Warnings(s.Noted(e).trace) == Warnings(s.trace) + match e case StallWarning(at) => [at] case _ => []
  {
    SelectNext(s.trace, e, Warning);
  }

  lemma WarningsGrown(a: seq<Event>, b: seq<Event>, kinds: set<Kind>)
    requires Grown(a, b, kinds) && Warning !in kinds
    ensures Warnings(b) == Warnings(a)
  {
    GrownSelects(a, b, kinds, Warning);
  }

  /** Since the loop began at `startUs`, with `past` warnings before, warnings came one window apart. */
  ghost predicate Paced(s: Session, startUs: u64, past: nat, now: u64) {
    var ws := Warnings(s.trace);
    && past <= |ws|
    && startUs + (|ws| - past) * STALL_WINDOW <= s.lastStallWarnUs <= now
    && (forall k :: past <= k < |ws| ==> startUs + (k + 1 - past) * STALL_WINDOW <= ws[k] <= s.lastStallWarnUs)
    && (forall k :: past <= k < |ws| - 1 ==> ws[k] + STALL_WINDOW <= ws[k + 1])
  }

  lemma CheckPaced(s: Session, startUs: u64, past: nat, now: u64)
    requires Paced(s, startUs, past, now)
    ensures Paced(CheckStall(s, now), startUs, past, now)
  {
    hide Warnings;
    WarningsNext(s, StallWarning(now));
  }

  lemma RefusedPaced(w: World, s: Session, hr: Hresult, gcEnd: u64, startUs: u64, past: nat)
    requires Paced(s, startUs, past, gcEnd)
    ensures Paced(Refused(w, s, hr, gcEnd).0, startUs, past, gcEnd)
    ensures s.ticks == Refused(w, s, hr, gcEnd).0.ticks
  {
    hide Warnings, SinkModel.Drained;
    WarningsNext(s, FlushSink);
    CheckPaced(s, startUs, past, gcEnd);
  }

  lemma PacedLater(s: Session, t: Session, startUs: u64, past: nat, now: u64, later: u64)
    requires Paced(s, startUs, past, now) && now <= later
    requires Warnings(t.trace) == Warnings(s.trace) && t.lastStallWarnUs == s.lastStallWarnUs
    ensures Paced(t, startUs, past, later)
  {
    hide Warnings;
  }

  lemma TurnPaced(w: World, s: Session, l: Loop, dev: nat, reply: Reply, past: nat)
    requires Monotone(w.clock) && Paced(s, l.startUs, past, w.clock(s.ticks))
    ensures var t := Turn(w, s, l, dev, reply).0; Paced(t, l.startUs, past, w.clock(t.ticks))
  {
    hide Warnings, Handle, Refused, Paced;
    var g := Polled(w, s, dev, reply);
    var now := w.clock(s.ticks + 1);
    WarningsNext(s, GetCommand(dev, reply));
    assert w.clock(s.ticks) <= now <= w.clock(g.ticks);
    PacedLater(s, g, l.startUs, past, w.clock(s.ticks), now);
    var t := Turn(w, s, l, dev, reply).0;
    if Failed(reply.hr) {
      RefusedPaced(w, g, reply.hr, now, l.startUs, past);
      PacedLater(t, t, l.startUs, past, now, w.clock(t.ticks));
    } else if reply.cmd.Some? {
      HandleFacts(w, g, l, dev, reply.cmd.value, reply.completion, s.ticks);
      WarningsGrown(g.trace, t.trace, {Working});
      assert now <= w.clock(t.ticks);
      PacedLater(g, t, l.startUs, past, now, w.clock(t.ticks));
    } else {
      PacedLater(g, t, l.startUs, past, now, w.clock(t.ticks));
    }
  }

  lemma {:induction false} ServePaced(w: World, s: Session, l: Loop, i: nat, script: seq<Reply>, past: nat)
    requires Monotone(w.clock) && Paced(s, l.startUs, past, w.clock(s.ticks))
    ensures var t := Serve(w, s, l, i, script).0; Paced(t, l.startUs, past, w.clock(t.ticks))
    decreases |script|
  {
    hide Turn, Paced;
    if script != [] {
      TurnPaced(w, s, l, l.base + i, script[0], past);
      var (t, running) := Turn(w, s, l, l.base + i, script[0]);
      if running {
        ServePaced(w, t, l, Next(l, i), script[1..], past);
      }
    }
  }

  // ----- a whole call of process_commands

  /** With a clock that never goes back, the chunks one run records are disjoint intervals in
      order, each total is the exact sum of its stages, and all totals together fit in the time
      from the start of the run to its end. */
  lemma {:induction false} RunIntervalsAreDisjoint(w: World, s: Session, opens: seq<Hresult>, script: seq<Reply>)
    requires Monotone(w.clock)
    ensures var t := Processed(w, s, opens, script);
      Spaced(t.counters.timings, |s.counters.timings|, w.clock(s.ticks), w.clock(t.ticks))
  {
    hide Serve, OpenedUpTo, LoopEnded, Warnings;
    var from := |s.counters.timings|;
    assert s.counters.timings[from..] == [];
    if s.state == STREAMING && s.hasSet {
      var n := DeviceTotal(s.deviceCount);
      OpeningFacts(s, opens, n);
      var (o, ok) := OpenedUpTo(s, opens, n);
      if ok {
        var l := LoopOf(w, s, o);
        var b := LoopBegun(w, o);
        assert w.clock(s.ticks) <= w.clock(s.ticks + 1);
        ServeSpaced(w, b, l, 0, script + [GONE], from);
        EndingFacts(w, Serve(w, b, l, 0, script + [GONE]).0, l);
      }
    }
  }

  /** With such a clock, the k-th stall warning of a run comes no earlier than k windows of 60
      seconds after its start, and warnings are at least one window apart. */
  lemma {:induction false} RunWarningsArePaced(w: World, s: Session, opens: seq<Hresult>, script: seq<Reply>)
    requires Monotone(w.clock)
    ensures var t := Processed(w, s, opens, script);
      var past := |Warnings(s.trace)|;
      var ws := Warnings(t.trace);
      && past <= |ws|
      && (forall k :: past <= k < |ws| ==>
            w.clock(s.ticks) + (k + 1 - past) * STALL_WINDOW <= ws[k] <= w.clock(t.ticks))
      && (forall k :: past <= k < |ws| - 1 ==> ws[k] + STALL_WINDOW <= ws[k + 1])
  {
    hide Serve, OpenedUpTo, LoopEnded, Warnings;
    var past := |Warnings(s.trace)|;
    if s.state == STREAMING && s.hasSet {
      var n := DeviceTotal(s.deviceCount);
      OpeningFacts(s, opens, n);
      var (o, ok) := OpenedUpTo(s, opens, n);
      if ok {
        var l := LoopOf(w, s, o);
        var b := LoopBegun(w, o);
        assert w.clock(s.ticks) <= w.clock(s.ticks + 1);
        WarningsGrown(s.trace, o.trace, {Opening});
        ServePaced(w, b, l, 0, script + [GONE], past);
        var e := Serve(w, b, l, 0, script + [GONE]).0;
        EndingFacts(w, e, l);
        WarningsGrown(e.trace, LoopEnded(w, e, l).trace, {Releasing, Flushing});
      } else {
        WarningsGrown(s.trace, o.trace, {Opening});
      }
    }
  }

  // ----- percentiles over a lifetime

  lemma SpacedCovers(timings: seq<ChunkTiming>, from: nat, startUs: u64, now: u64)
    requires Spaced(timings, from, startUs, now) && TotalsCover(timings[..from])
    ensures TotalsCover(timings)
  {
    forall k | 0 <= k < |timings|
      ensures timings[k].totalUs == StageSum(timings[k])
    {
      if k < from {
        assert timings[k] == timings[..from][k];
      }
    }
  }

  lemma {:induction false} ServeExtends(w: World, s: Session, l: Loop, i: nat, script: seq<Reply>)
    ensures s.counters.timings <= Serve(w, s, l, i, script).0.counters.timings
    decreases |script|
  {
    hide Turn;
    if script != [] {
      TurnExtends(w, s, l, l.base + i, script[0]);
      var (t, running) := Turn(w, s, l, l.base + i, script[0]);
      if running {
        ServeExtends(w, t, l, Next(l, i), script[1..]);
      }
    }
  }

  lemma TurnExtends(w: World, s: Session, l: Loop, dev: nat, reply: Reply)
    ensures s.counters.timings <= Turn(w, s, l, dev, reply).0.counters.timings
  {
    hide SinkModel.Drained, Handle, Warnings;
    if !Failed(reply.hr) && reply.cmd.Some? {
      HandleFacts(w, Polled(w, s, dev, reply), l, dev, reply.cmd.value, reply.completion, s.ticks);
    }
  }

  lemma ProcessedExtends(w: World, s: Session, opens: seq<Hresult>, script: seq<Reply>)
    ensures s.counters.timings <= Processed(w, s, opens, script).counters.timings
  {
    hide Serve, OpenedUpTo, LoopEnded, Warnings;
    if s.state == STREAMING && s.hasSet {
      var n := DeviceTotal(s.deviceCount);
      OpeningFacts(s, opens, n);
      var (o, ok) := OpenedUpTo(s, opens, n);
      if ok {
        var l := LoopOf(w, s, o);
        ServeExtends(w, LoopBegun(w, o), l, 0, script + [GONE]);
        EndingFacts(w, Serve(w, LoopBegun(w, o), l, 0, script + [GONE]).0, l);
      }
    }
  }

  lemma {:induction false} CallsCover(w: World, s: Session, calls: seq<Call>)
    requires Monotone(w.clock) && TotalsCover(s.counters.timings)
    ensures TotalsCover(ApplyAll(w, s, calls).counters.timings)
    decreases |calls|
  {
    hide Processed, Spaced, TotalsCover, SinkModel.Drained;
    if calls != [] {
      var t := Apply(w, s, calls[0]);
      match calls[0] {
        case ProcessCommands(opens, script) =>
          RunIntervalsAreDisjoint(w, s, opens, script);
          ProcessedExtends(w, s, opens, script);
          assert t.counters.timings[..|s.counters.timings|] == s.counters.timings;
          SpacedCovers(t.counters.timings, |s.counters.timings|, w.clock(s.ticks), w.clock(t.ticks));
        case _ =>
          assert t.counters == s.counters;
      }
      CallsCover(w, t, calls[1..]);
    }
  }

  /** In every lifetime under a clock that never goes back, and at every percentage, the percentile
      of the chunk totals is at least that of each single stage. */
  lemma {:induction false} LifetimePercentilesDominate(
    w: World, sink: SinkModel.Sink, calls: seq<Call>, stage: Stage, p: real)
    requires Monotone(w.clock) && 0.0 <= p <= 100.0
    ensures var ts := Lifetime(w, sink, calls).counters.timings;
      Percentile(StageValues(ts, stage), p) <= Percentile(StageValues(ts, TotalStage), p)
  {
    hide ApplyAll, Percentile, SinkModel.Drained;
    CallsCover(w, Fresh(sink), calls);
    TotalPercentileDominates(ApplyAll(w, Fresh(sink), calls).counters.timings, stage, p);
  }
}
