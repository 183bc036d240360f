/** Metrics: byte, chunk and buffer counters, per-chunk timings, and what is derived from them. */
module MetricsModel {
  import opened Words
  import opened Percentiles

  datatype ChunkTiming = ChunkTiming(
    size: u64, getcommandUs: u64, dispatchUs: u64, sinkUs: u64, completeUs: u64, totalUs: u64, timestampUs: u64)

  datatype Stage = GetCommandStage | DispatchStage | SinkStage | CompleteStage | TotalStage

  function FieldOf(t: ChunkTiming, stage: Stage): u64 {
    match stage
    case GetCommandStage => t.getcommandUs
    case DispatchStage => t.dispatchUs
    case SinkStage => t.sinkUs
    case CompleteStage => t.completeUs
    case TotalStage => t.totalUs
  }

  datatype Counters = Counters(
    totalBytes: u64, chunkCount: u64, minChunk: u64, maxChunk: u64, sumChunks: u64,
    acquires: u64, releases: u64, hits: u64, misses: u64, timings: seq<ChunkTiming>)

  const ZERO := Counters(0, 0, UINT64_MAX, 0, 0, 0, 0, 0, 0, [])

  function WithBytes(c: Counters, size: u64): Counters {
    c.(totalBytes := Add64(c.totalBytes, size), chunkCount := Add64(c.chunkCount, 1))
  }

  function WithChunkSize(c: Counters, size: u64): Counters {
    c.(minChunk := if size < c.minChunk then size else c.minChunk,
       maxChunk := if size > c.maxChunk then size else c.maxChunk,
       sumChunks := Add64(c.sumChunks, size))
  }

  function WithAcquire(c: Counters, success: bool): Counters {
    var d := c.(acquires := Add64(c.acquires, 1));
    if success then d.(hits := Add64(c.hits, 1)) else d.(misses := Add64(c.misses, 1))
  }

  function WithRelease(c: Counters): Counters {
    c.(releases := Add64(c.releases, 1))
  }

  function WithTiming(c: Counters, t: ChunkTiming): Counters {
    c.(timings := c.timings + [t])
  }

  function StageValues(timings: seq<ChunkTiming>, stage: Stage): seq<u64> {
    seq(|timings|, k requires 0 <= k < |timings| => FieldOf(timings[k], stage))
  }

  // ----- the counters against the list of sizes they stand for

  /** Every aggregate says what it should about the recorded sizes. */
  ghost predicate Tallies(c: Counters, sizes: seq<u64>) {
    && c.totalBytes == c.sumChunks == Wrap(Sum(sizes))
    && c.chunkCount == Wrap(|sizes|)
    && (forall k :: 0 <= k < |sizes| ==> c.minChunk <= sizes[k] <= c.maxChunk)
    && (sizes == [] ==> c.minChunk == UINT64_MAX && c.maxChunk == 0)
    && (sizes != [] ==> c.minChunk in sizes && c.maxChunk in sizes)
  }

  lemma {:induction false} TallyStep(c: Counters, sizes: seq<u64>, size: u64)
    requires Tallies(c, sizes)
    ensures Tallies(WithBytes(WithChunkSize(c, size), size), sizes + [size])
    ensures Sum(sizes + [size]) == Sum(sizes) + size
  {
    assert (sizes + [size])[..|sizes|] == sizes;
    assert (sizes + [size])[|sizes|] == size;
    AddWraps(Sum(sizes), size);
    AddWraps(|sizes|, 1);
    var d := WithChunkSize(c, size);
    assert d.minChunk == size || d.minChunk == c.minChunk;
  }

  // ----- pool counters

  /** The counters after acquires with these outcomes. */
  function Acquired(outcomes: seq<bool>): Counters {
    if outcomes == [] then ZERO
    else WithAcquire(Acquired(outcomes[..|outcomes| - 1]), outcomes[|outcomes| - 1])
  }

  function CountOf(outcomes: seq<bool>, outcome: bool): nat {
    if outcomes == [] then 0
    else CountOf(outcomes[..|outcomes| - 1], outcome) + if outcomes[|outcomes| - 1] == outcome then 1 else 0
  }

  /** However the acquires turn out, each is either a hit or a miss, and is counted as what it was. */
  lemma {:induction false} AcquiresSplit(outcomes: seq<bool>)
    ensures var c := Acquired(outcomes);
      && c.acquires == Wrap(|outcomes|)
      && c.hits == Wrap(CountOf(outcomes, true)) && c.misses == Wrap(CountOf(outcomes, false))
    ensures CountOf(outcomes, true) + CountOf(outcomes, false) == |outcomes|
  {
    if outcomes != [] {
      var past := outcomes[..|outcomes| - 1];
      AcquiresSplit(past);
      AddWraps(|past|, 1);
      AddWraps(CountOf(past, true), 1);
      AddWraps(CountOf(past, false), 1);
    }
  }

  /** The average printed from the size sum, the one printed from the totals, and the minimum as
      printed (never updated reads as 0). */
  function AverageFromSum(c: Counters): u64 {
    if c.chunkCount > 0 then DivideDown(c.sumChunks, c.chunkCount) else 0
  }

  function AverageFromTotals(c: Counters): u64
    requires c.chunkCount > 0
  {
    DivideDown(c.totalBytes, c.chunkCount)
  }

  function ShownMin(c: Counters): u64 {
    if c.minChunk == UINT64_MAX then 0 else c.minChunk
  }

  function DivideDown(a: u64, b: u64): (q: u64)
    requires b > 0
    ensures q * b <= a < (q + 1) * b
  {
    DivBounds(a, b);
    DivShrinks(a, b);
    a / b
  }

  lemma {:induction false} SumBounds(sizes: seq<u64>, lo: nat, hi: nat)
    requires forall k :: 0 <= k < |sizes| ==> lo <= sizes[k] <= hi
    ensures lo * |sizes| <= Sum(sizes) <= hi * |sizes|
  {
    if sizes != [] {
      SumBounds(sizes[..|sizes| - 1], lo, hi);
      var n := |sizes| - 1;
      assert lo * (n + 1) == lo * n + lo && hi * (n + 1) == hi * n + hi;
    }
  }

  lemma AverageBetween(a: nat, n: nat, q: nat, lo: nat, hi: nat)
    requires n > 0 && lo * n <= a <= hi * n && q * n <= a < (q + 1) * n
    ensures lo <= q <= hi
  {
    if q < lo {
      MulGrows(q + 1, lo, n);
    } else if q > hi {
      MulGrows(hi + 1, q, n);
      Distribute(hi, 0, n);
    }
  }

  /** The two printed averages are the same number, wrapped or not. */
  lemma AveragesAgree(c: Counters, sizes: seq<u64>)
    requires Tallies(c, sizes)
    ensures c.chunkCount > 0 ==> AverageFromSum(c) == AverageFromTotals(c)
  {
  }

  lemma ExtremesBoundSum(c: Counters, sizes: seq<u64>)
    requires Tallies(c, sizes)
    ensures c.minChunk * |sizes| <= Sum(sizes) <= c.maxChunk * |sizes|
  {
    if sizes == [] {
      assert Sum(sizes) == 0;
    } else {
      SumBounds(sizes, c.minChunk, c.maxChunk);
    }
  }

  /** The printed average lies between the printed minimum and maximum, and is the exact average
      rounded down, as long as neither the byte total nor the chunk count has wrapped. */
  lemma {:induction false} AveragesAreSound(c: Counters, sizes: seq<u64>)
    requires Tallies(c, sizes) && sizes != []
    requires Sum(sizes) < TWO_64 && |sizes| < TWO_64
    ensures c.chunkCount > 0
    ensures ShownMin(c) <= AverageFromTotals(c) <= c.maxChunk
    ensures AverageFromTotals(c) * |sizes| <= Sum(sizes) < (AverageFromTotals(c) + 1) * |sizes|
  {
    hide Sum;
    ExtremesBoundSum(c, sizes);
    assert c.totalBytes == Sum(sizes) && c.chunkCount == |sizes|;
    hide Tallies, DivideDown, Wrap;
    AverageBetween(Sum(sizes), |sizes|, AverageFromTotals(c), c.minChunk, c.maxChunk);
  }

  // ----- percentiles of the total against those of its stages

  /** Each total is at least each of its parts. */
  ghost predicate TotalsCover(timings: seq<ChunkTiming>) {
    forall k :: 0 <= k < |timings| ==>
      timings[k].totalUs == timings[k].getcommandUs + timings[k].dispatchUs + timings[k].sinkUs + timings[k].completeUs
  }

  lemma {:induction false} TotalPercentileDominates(timings: seq<ChunkTiming>, stage: Stage, p: real)
    requires TotalsCover(timings) && 0.0 <= p <= 100.0
    ensures Percentile(StageValues(timings, stage), p) <= Percentile(StageValues(timings, TotalStage), p)
  {
    PercentileDominates(StageValues(timings, TotalStage), StageValues(timings, stage), p);
  }
}

module MetricsRecorder {
  import opened Words
  import opened MetricsModel
  import opened Percentiles
  import Timers

  class Metrics {
    const timer: Timers.Timer
    var totalBytes: u64
    var chunkCount: u64
    var minChunkSize: u64
    var maxChunkSize: u64
    var sumChunkSizes: u64
    var bufferAcquireCount: u64
    var bufferReleaseCount: u64
    var bufferPoolHits: u64
    var bufferPoolMisses: u64
    var timings: seq<ChunkTiming>

    function Model(): Counters
      reads this
    {
      Counters(totalBytes, chunkCount, minChunkSize, maxChunkSize, sumChunkSizes,
        bufferAcquireCount, bufferReleaseCount, bufferPoolHits, bufferPoolMisses, timings)
    }

    constructor (timer: Timers.Timer)
      ensures this.timer == timer && Model() == ZERO
    {
      this.timer := timer;
      totalBytes, chunkCount := 0, 0;
      minChunkSize, maxChunkSize, sumChunkSizes := UINT64_MAX, 0, 0;
      bufferAcquireCount, bufferReleaseCount, bufferPoolHits, bufferPoolMisses := 0, 0, 0, 0;
      timings := [];
    }

    method NowUs() returns (us: u64)
      modifies timer
      ensures us == timer.clock(old(timer.taken)) && timer.taken == old(timer.taken) + 1
    {
      us := timer.NowUs();
    }

    method AddBytes(size: u64)
      modifies this
      ensures Model() == WithBytes(old(Model()), size)
    {
      totalBytes := Add64(totalBytes, size);
      chunkCount := Add64(chunkCount, 1);
    }

    /** Undisturbed by other threads; the exchanges of the two loops fail spuriously
        `minRetries` and `maxRetries` times before they are let through. */
    method RecordChunkSize(size: u64, minRetries: nat, maxRetries: nat)
      modifies this
      ensures Model() == WithChunkSize(old(Model()), size)
    {
      var curMin, failures := minChunkSize, 0;
      while size < curMin
        invariant curMin == minChunkSize && Model() == old(Model())
        invariant failures <= minRetries
        decreases minRetries - failures
      {
        if failures == minRetries && minChunkSize == curMin {
          minChunkSize := size;
          break;
        }
        curMin := minChunkSize;
        failures := failures + 1;
      }
      label minimum:
      var curMax := maxChunkSize;
      failures := 0;
      while size > curMax
        invariant curMax == maxChunkSize && Model() == old@minimum(Model())
        invariant failures <= maxRetries
        decreases maxRetries - failures
      {
        if failures == maxRetries && maxChunkSize == curMax {
          maxChunkSize := size;
          break;
        }
        curMax := maxChunkSize;
        failures := failures + 1;
      }
      sumChunkSizes := Add64(sumChunkSizes, size);
    }

    method RecordChunkTiming(timing: ChunkTiming)
      modifies this
      ensures Model() == WithTiming(old(Model()), timing)
    {
      timings := timings + [timing];
    }

    method RecordBufferAcquire(success: bool)
      modifies this
      ensures Model() == WithAcquire(old(Model()), success)
    {
      bufferAcquireCount := Add64(bufferAcquireCount, 1);
      if success {
        bufferPoolHits := Add64(bufferPoolHits, 1);
      } else {
        bufferPoolMisses := Add64(bufferPoolMisses, 1);
      }
    }

    method RecordBufferRelease()
      modifies this
      ensures Model() == WithRelease(old(Model()))
    {
      bufferReleaseCount := Add64(bufferReleaseCount, 1);
    }

    method StageValues(stage: Stage) returns (values: seq<u64>)
      ensures values == MetricsModel.StageValues(timings, stage)
    {
      values := [];
      for k := 0 to |timings|
        invariant values == MetricsModel.StageValues(timings[..k], stage)
      {
        values := values + [FieldOf(timings[k], stage)];
      }
      assert timings[..|timings|] == timings;
    }

    /** One cell of the printed latency table. */
    method StagePercentile(stage: Stage, p: real) returns (us: u64)
      requires 0.0 <= p <= 100.0
      ensures us == Percentile(MetricsModel.StageValues(timings, stage), p)
    {
      var values := StageValues(stage);
      us := Percentile(values, p);
    }
  }
}
