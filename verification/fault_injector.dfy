/** The fault injector of a build with fault injection enabled. */
module FaultInjectors {
  import opened Words

  datatype Injector = Injector(failAfter: u64, counter: u64, failNext: bool)

  const IDLE := Injector(0, 0, false)

  function Armed(i: Injector, n: u64): Injector {
    i.(failAfter := n, counter := 0)
  }

  /** on_chunk_completed: the new state, and whether the failure fires now. */
  function ChunkCompleted(i: Injector): (Injector, bool) {
    if i.failAfter > 0
    then var c := Add64(i.counter, 1); (i.(counter := c), c >= i.failAfter)
    else (i, false)
  }

  function AskedToFail(i: Injector): (Injector, bool) {
    if i.failNext then (i.(failNext := false), true)
    else (i, i.failAfter > 0 && i.counter >= i.failAfter)
  }

  class FaultInjector {
    var failAfterNChunks: u64
    var chunkCounter: u64
    var failNextCommand: bool

    function Model(): Injector
      reads this
    {
      Injector(failAfterNChunks, chunkCounter, failNextCommand)
    }

    constructor ()
      ensures Model() == IDLE
    {
      failAfterNChunks, chunkCounter, failNextCommand := 0, 0, false;
    }

    method SetFailAfterNChunks(n: u64)
      modifies this
      ensures Model() == Armed(old(Model()), n)
    {
      failAfterNChunks := n;
      chunkCounter := 0;
    }

    method SetFailNextCommand()
      modifies this
      ensures Model() == old(Model()).(failNext := true)
    {
      failNextCommand := true;
    }

    method OnChunkCompleted() returns (fires: bool)
      modifies this
      ensures (Model(), fires) == ChunkCompleted(old(Model()))
    {
      if failAfterNChunks > 0 {
        chunkCounter := Add64(chunkCounter, 1);
        return chunkCounter >= failAfterNChunks;
      }
      return false;
    }

    method ShouldFail() returns (fail: bool)
      modifies this
      ensures (Model(), fail) == AskedToFail(old(Model()))
    {
      if failNextCommand {
        failNextCommand := false;
        return true;
      }
      if failAfterNChunks > 0 && chunkCounter >= failAfterNChunks {
        return true;
      }
      return false;
    }

    method Reset()
      modifies this
      ensures Model() == IDLE
    {
      failAfterNChunks, chunkCounter, failNextCommand := 0, 0, false;
    }
  }

  function AfterCompletions(i: Injector, k: nat): Injector {
    if k == 0 then i else ChunkCompleted(AfterCompletions(i, k - 1)).0
  }

  /** The k-th completion after arming with n. */
  function FiresAt(i: Injector, n: u64, k: nat): bool
    requires k > 0
  {
    ChunkCompleted(AfterCompletions(Armed(i, n), k - 1)).1
  }

  lemma {:induction false} CounterCounts(i: Injector, n: u64, k: nat)
    requires n > 0 && k < TWO_64
    ensures AfterCompletions(Armed(i, n), k) == Armed(i, n).(counter := k)
  {
    if k > 0 {
      CounterCounts(i, n, k - 1);
    }
  }

  lemma {:induction false} DisarmedNeverMoves(i: Injector, k: nat)
    requires i.failAfter == 0
    ensures AfterCompletions(i, k) == i && !ChunkCompleted(i).1
  {
    if k > 0 {
      DisarmedNeverMoves(i, k - 1);
    }
  }

  /** Armed with n, the injector fires at the n-th completion itself and at every later one, and
      never before; armed with 0 it is the stub of a build without fault injection. */
  lemma {:induction false} FiresFromTheNth(i: Injector, n: u64, k: nat)
    requires 0 < k < TWO_64
    ensures FiresAt(i, n, k) <==> 0 < n <= k
  {
    if n > 0 {
      CounterCounts(i, n, k - 1);
    } else {
      DisarmedNeverMoves(Armed(i, n), k - 1);
    }
  }

  /** A single-shot request is consumed by the next query; while no count is armed the query after
      that says no. */
  lemma {:induction false} SingleShot(i: Injector)
    ensures var (once, first) := AskedToFail(i.(failNext := true));
      && first
      && (AskedToFail(once).1 <==> i.failAfter > 0 && i.counter >= i.failAfter)
      && AskedToFail(once).0 == once
  {
  }
}
