/**
 record_chunk_size under concurrency: any number of calls, interleaved one atomic access at a
 time, with compare_exchange_weak free to fail spuriously.
 */
module MinMaxRace {
  import opened Words

  /** Where one call stands: before the load of the minimum, in its compare-exchange loop with
      the value last seen, and likewise for the maximum; then before the addition, then done. */
  datatype Pc =
    | LoadMin
    | SwapMin(seen: u64)
    | LoadMax
    | SwapMax(seen: u64)
    | AddSum
    | Done

  datatype Shared = Shared(min: u64, max: u64, sum: u64)

  /** Call k records sizes[k]. */
  datatype Race = Race(shared: Shared, sizes: seq<u64>, pcs: seq<Pc>) {
    predicate Valid() {
      |sizes| == |pcs|
    }
  }

  function Start(sizes: seq<u64>): Race {
    Race(Shared(UINT64_MAX, 0, 0), sizes, seq(|sizes|, _ => LoadMin))
  }

  /** The loop tests: leave the loop, or try (again) against the value just seen. */
  function TestMin(size: u64, seen: u64): Pc {
    if size < seen then SwapMin(seen) else LoadMax
  }

  function TestMax(size: u64, seen: u64): Pc {
    if size > seen then SwapMax(seen) else AddSum
  }

  /** One atomic access by one call. A failed exchange leaves the current value in `seen`. */
  function Access(m: Shared, size: u64, pc: Pc, spurious: bool): (Shared, Pc) {
    match pc
    case LoadMin => (m, TestMin(size, m.min))
    case SwapMin(seen) =>
      if m.min == seen && !spurious then (m.(min := size), LoadMax) else (m, TestMin(size, m.min))
    case LoadMax => (m, TestMax(size, m.max))
    case SwapMax(seen) =>
      if m.max == seen && !spurious then (m.(max := size), AddSum) else (m, TestMax(size, m.max))
    case AddSum => (m.(sum := Add64(m.sum, size)), Done)
    case Done => (m, Done)
  }

  /** A schedule entry names a call and says whether its exchange, if it makes one, fails spuriously. */
  datatype Turn = Turn(call: nat, spurious: bool)

  function Step(r: Race, t: Turn): (n: Race)
    requires r.Valid()
    ensures n.Valid() && n.sizes == r.sizes
  {
    if t.call >= |r.pcs| then r
    else
      var (m, pc) := Access(r.shared, r.sizes[t.call], r.pcs[t.call], t.spurious);
      Race(m, r.sizes, r.pcs[t.call := pc])
  }

  function Run(r: Race, turns: seq<Turn>): (n: Race)
    requires r.Valid()
    ensures n.Valid() && n.sizes == r.sizes
    decreases |turns|
  {
    if turns == [] then r else Run(Step(r, turns[0]), turns[1..])
  }

  predicate PastMin(pc: Pc) {
    !pc.LoadMin? && !pc.SwapMin?
  }

  predicate PastMax(pc: Pc) {
    pc.AddSum? || pc.Done?
  }

  predicate AllDone(r: Race) {
    forall k :: 0 <= k < |r.pcs| ==> r.pcs[k] == Done
  }

  /** Exact sum of the sizes whose calls are done. */
  function SumDone(sizes: seq<u64>, pcs: seq<Pc>): nat
    requires |sizes| == |pcs|
  {
    if sizes == [] then 0
    else
      var last := if pcs[|pcs| - 1] == Done then sizes[|sizes| - 1] else 0;
      SumDone(sizes[..|sizes| - 1], pcs[..|pcs| - 1]) + last
  }

  /** What every reachable state satisfies. */
  ghost predicate Inv(r: Race) {
    && r.Valid()
    && (r.shared.min == UINT64_MAX || r.shared.min in r.sizes)
    && (r.shared.max == 0 || r.shared.max in r.sizes)
    && (forall k :: 0 <= k < |r.pcs| ==> CallInv(r.shared, r.sizes[k], r.pcs[k]))
    && r.shared.sum == Wrap(SumDone(r.sizes, r.pcs))
  }

  /** A call past a loop is covered by it; a call inside one still has a reason to be there. */
  predicate CallInv(m: Shared, size: u64, pc: Pc) {
    && (PastMin(pc) ==> m.min <= size)
    && (PastMax(pc) ==> size <= m.max)
    && (pc.SwapMin? ==> size < pc.seen && m.min <= pc.seen)
    && (pc.SwapMax? ==> pc.seen < size && pc.seen <= m.max)
  }

  lemma AccessInv(m: Shared, size: u64, pc: Pc, spurious: bool)
    requires CallInv(m, size, pc)
    ensures var (n, to) := Access(m, size, pc, spurious);
      && CallInv(n, size, to)
      && n.min <= m.min && m.max <= n.max
      && (n.min == m.min || n.min == size) && (n.max == m.max || n.max == size)
      && n.sum == (if pc == AddSum then Add64(m.sum, size) else m.sum)
      && (to == Done <==> pc == AddSum || pc == Done)
  {
  }

  lemma {:induction false} SumDoneUpdate(sizes: seq<u64>, pcs: seq<Pc>, k: nat, pc: Pc)
    requires |sizes| == |pcs| && k < |pcs|
    ensures pcs[k] != Done ==>
      SumDone(sizes, pcs[k := pc]) == SumDone(sizes, pcs) + if pc == Done then sizes[k] else 0
    ensures pcs[k] == pc ==> SumDone(sizes, pcs[k := pc]) == SumDone(sizes, pcs)
  {
    var n := |sizes| - 1;
    if k < n {
      assert pcs[k := pc][..n] == pcs[..n][k := pc];
      SumDoneUpdate(sizes[..n], pcs[..n], k, pc);
    } else {
      assert pcs[k := pc][..n] == pcs[..n];
    }
    if pcs[k] == pc {
      assert pcs[k := pc] == pcs;
    }
  }

  lemma OthersKeep(r: Race, k: nat, m: Shared, pc: Pc)
    requires Inv(r) && k < |r.pcs| && CallInv(m, r.sizes[k], pc)
    requires m.min <= r.shared.min && r.shared.max <= m.max
    ensures forall i :: 0 <= i < |r.pcs| ==> CallInv(m, r.sizes[i], r.pcs[k := pc][i])
  {
    hide SumDone;
    forall i | 0 <= i < |r.pcs|
      ensures CallInv(m, r.sizes[i], r.pcs[k := pc][i])
    {
      if i != k {
        assert CallInv(r.shared, r.sizes[i], r.pcs[i]);
      }
    }
  }

  /** One step keeps the invariant, never raises the minimum and never lowers the maximum. */
  lemma {:induction false} StepKeeps(r: Race, t: Turn)
    requires Inv(r)
    ensures Inv(Step(r, t))
    ensures Step(r, t).shared.min <= r.shared.min && r.shared.max <= Step(r, t).shared.max
  {
    if t.call < |r.pcs| {
      var k := t.call;
      assert CallInv(r.shared, r.sizes[k], r.pcs[k]);
      hide CallInv, SumDone, Access, Wrap, Add64;
      var (m, pc) := Access(r.shared, r.sizes[k], r.pcs[k], t.spurious);
      AccessInv(r.shared, r.sizes[k], r.pcs[k], t.spurious);
      SumDoneUpdate(r.sizes, r.pcs, k, pc);
      AddWraps(SumDone(r.sizes, r.pcs), r.sizes[k]);
      OthersKeep(r, k, m, pc);
      assert Step(r, t) == Race(m, r.sizes, r.pcs[k := pc]);
    }
  }

  lemma {:induction false} RunKeeps(r: Race, turns: seq<Turn>)
    requires Inv(r)
    ensures Inv(Run(r, turns))
    ensures Run(r, turns).shared.min <= r.shared.min && r.shared.max <= Run(r, turns).shared.max
    decreases |turns|
  {
    if turns != [] {
      StepKeeps(r, turns[0]);
      RunKeeps(Step(r, turns[0]), turns[1..]);
    }
  }

  lemma {:induction false} NothingDone(sizes: seq<u64>, pcs: seq<Pc>)
    requires |sizes| == |pcs| && forall k :: 0 <= k < |pcs| ==> pcs[k] == LoadMin
    ensures SumDone(sizes, pcs) == 0
  {
    if sizes != [] {
      NothingDone(sizes[..|sizes| - 1], pcs[..|pcs| - 1]);
    }
  }

  lemma {:induction false} EverythingDone(sizes: seq<u64>, pcs: seq<Pc>)
    requires |sizes| == |pcs| && forall k :: 0 <= k < |pcs| ==> pcs[k] == Done
    ensures SumDone(sizes, pcs) == Sum(sizes)
  {
    if sizes != [] {
      EverythingDone(sizes[..|sizes| - 1], pcs[..|pcs| - 1]);
    }
  }

  lemma StartInv(sizes: seq<u64>)
    ensures Inv(Start(sizes))
  {
    NothingDone(sizes, Start(sizes).pcs);
  }

  /** At every moment of every interleaving the shared extremes are recorded sizes or still the
      initial values, and every further step moves them only inwards. */
  lemma {:induction false} ExtremesAreRecorded(sizes: seq<u64>, turns: seq<Turn>, more: Turn)
    ensures var m := Run(Start(sizes), turns).shared;
      var n := Step(Run(Start(sizes), turns), more).shared;
      && (m.min == UINT64_MAX || m.min in sizes) && (m.max == 0 || m.max in sizes)
      && n.min <= m.min && m.max <= n.max
  {
    StartInv(sizes);
    RunKeeps(Start(sizes), turns);
    StepKeeps(Run(Start(sizes), turns), more);
  }

  /** When every call has returned, minimum, maximum and sum are exact, whatever the interleaving
      and however many exchanges failed. */
  lemma {:induction false} FinishedRaceIsExact(sizes: seq<u64>, turns: seq<Turn>)
    requires sizes != [] && AllDone(Run(Start(sizes), turns))
    ensures var m := Run(Start(sizes), turns).shared;
      && m.min in sizes && m.max in sizes
      && (forall k :: 0 <= k < |sizes| ==> m.min <= sizes[k] <= m.max)
      && m.sum == Wrap(Sum(sizes))
  {
    StartInv(sizes);
    RunKeeps(Start(sizes), turns);
    var r := Run(Start(sizes), turns);
    forall k | 0 <= k < |sizes|
      ensures r.shared.min <= sizes[k] <= r.shared.max
    {
      assert r.pcs[k] == Done;
      assert CallInv(r.shared, r.sizes[k], r.pcs[k]);
    }
    EverythingDone(sizes, r.pcs);
    assert r.shared.min <= sizes[0] <= r.shared.max;
  }

  // ----- lock freedom

  /** A failed exchange that was not spurious was caused by another call's success. */
  predicate Stale(m: Shared, pc: Pc) {
    (pc.SwapMin? && pc.seen != m.min) || (pc.SwapMax? && pc.seen != m.max)
  }

  function StepsLeft(pc: Pc, n: nat): nat {
    match pc
    case LoadMin => 5 * (n + 1)
    case SwapMin(_) => 4 * (n + 1)
    case LoadMax => 3 * (n + 1)
    case SwapMax(_) => 2 * (n + 1)
    case AddSum => n + 1
    case Done => 0
  }

  function Weight(m: Shared, pc: Pc, n: nat): nat {
    StepsLeft(pc, n) + if Stale(m, pc) then 1 else 0
  }

  function Potential(m: Shared, pcs: seq<Pc>, n: nat): nat {
    if pcs == [] then 0 else Potential(m, pcs[..|pcs| - 1], n) + Weight(m, pcs[|pcs| - 1], n)
  }

  lemma {:induction false} PotentialUpdate(m: Shared, pcs: seq<Pc>, n: nat, k: nat, pc: Pc)
    requires k < |pcs|
    ensures Potential(m, pcs[k := pc], n) + Weight(m, pcs[k], n) == Potential(m, pcs, n) + Weight(m, pc, n)
  {
    var l := |pcs| - 1;
    if k < l {
      assert pcs[k := pc][..l] == pcs[..l][k := pc];
      PotentialUpdate(m, pcs[..l], n, k, pc);
    } else {
      assert pcs[k := pc][..l] == pcs[..l];
    }
  }

  lemma {:induction false} PotentialDisturbed(m: Shared, w: Shared, pcs: seq<Pc>, n: nat)
    ensures Potential(w, pcs, n) <= Potential(m, pcs, n) + |pcs|
    ensures w.min == m.min && w.max == m.max ==> Potential(w, pcs, n) == Potential(m, pcs, n)
  {
    if pcs != [] {
      PotentialDisturbed(m, w, pcs[..|pcs| - 1], n);
    }
  }

  /** Every access by an unfinished call uses up potential, except a spurious failure. */
  lemma StepUsesPotential(r: Race, t: Turn)
    requires r.Valid() && t.call < |r.pcs| && r.pcs[t.call] != Done
    ensures var n := |r.pcs|; var s := Step(r, t);
      Potential(s.shared, s.pcs, n) < Potential(r.shared, r.pcs, n) + if t.spurious then 1 else 0
  {
    var n := |r.pcs|;
    var k := t.call;
    var (m, pc) := Access(r.shared, r.sizes[k], r.pcs[k], t.spurious);
    PotentialDisturbed(r.shared, m, r.pcs, n);
    PotentialUpdate(m, r.pcs, n, k, pc);
  }

  /** Every turn goes to a call that has not returned yet. */
  predicate Busy(r: Race, turns: seq<Turn>)
    requires r.Valid()
    decreases |turns|
  {
    turns == [] ||
    (turns[0].call < |r.pcs| && r.pcs[turns[0].call] != Done && Busy(Step(r, turns[0]), turns[1..]))
  }

  function SpuriousTurns(turns: seq<Turn>): nat {
    if turns == [] then 0 else (if turns[0].spurious then 1 else 0) + SpuriousTurns(turns[1..])
  }

  lemma {:induction false} BusyRunIsPaidFor(r: Race, turns: seq<Turn>)
    requires r.Valid() && Busy(r, turns)
    ensures |turns| <= Potential(r.shared, r.pcs, |r.pcs|) + SpuriousTurns(turns)
    decreases |turns|
  {
    if turns != [] {
      StepUsesPotential(r, turns[0]);
      BusyRunIsPaidFor(Step(r, turns[0]), turns[1..]);
    }
  }

  lemma {:induction false} InitialPotential(m: Shared, pcs: seq<Pc>, n: nat)
    requires forall k :: 0 <= k < |pcs| ==> pcs[k] == LoadMin
    ensures Potential(m, pcs, n) == |pcs| * (5 * (n + 1))
  {
    if pcs != [] {
      InitialPotential(m, pcs[..|pcs| - 1], n);
      var l := |pcs| - 1;
      assert (l + 1) * (5 * (n + 1)) == l * (5 * (n + 1)) + 5 * (n + 1);
    }
  }

  /** The loops cannot go on for ever: n concurrent calls together make at most 5n(n+1) accesses
      plus one for each spurious failure, under every schedule. */
  lemma {:induction false} RaceEnds(sizes: seq<u64>, turns: seq<Turn>)
    requires Busy(Start(sizes), turns)
    ensures |turns| <= |sizes| * (5 * (|sizes| + 1)) + SpuriousTurns(turns)
  {
    var r := Start(sizes);
    BusyRunIsPaidFor(r, turns);
    InitialPotential(r.shared, r.pcs, |sizes|);
  }
}
