/** Exactly when every command is completed exactly once. */
module Completion {
  import opened Words
  import opened VdiProtocol
  import opened SinkModel
  import opened Sessions
  import opened ProtocolRules
  import opened LifetimeRules

  /** The writes among the commands, in order. */
  function WritesIn(hs: seq<Handout>): seq<Handout> {
    if hs == [] then []
    else WritesIn(hs[..|hs| - 1]) + if hs[|hs| - 1].1.code == VDC_WRITE then [hs[|hs| - 1]] else []
  }

  function ClosesIn(hs: seq<Handout>): nat {
    if hs == [] then 0 else ClosesIn(hs[..|hs| - 1]) + if hs[|hs| - 1].1.code == VDC_CLOSE then 1 else 0
  }

  predicate NoCloseIn(hs: seq<Handout>) {
    forall k :: 0 <= k < |hs| ==> hs[k].1.code != VDC_CLOSE
  }

  lemma InNext(hs: seq<Handout>, h: Handout)
    ensures WritesIn(hs + [h]) == WritesIn(hs) + if h.1.code == VDC_WRITE then [h] else []
    ensures ClosesIn(hs + [h]) == ClosesIn(hs) + if h.1.code == VDC_CLOSE then 1 else 0
  {
    assert (hs + [h])[..|hs|] == hs;
  }

  lemma {:induction false} NoCloseCounts(hs: seq<Handout>)
    ensures ClosesIn(hs) == 0 <==> NoCloseIn(hs)
  {
    if hs != [] {
      var n := |hs| - 1;
      NoCloseCounts(hs[..n]);
      assert forall k :: 0 <= k < n ==> hs[..n][k] == hs[k];
    }
  }

  lemma {:induction false} SubsequenceShorter(a: seq<Handout>, b: seq<Handout>)
    requires Subsequence(a, b)
    ensures |a| <= |b| && (|a| == |b| ==> a == b)
  {
    if a != [] {
      var p, q := a[..|a| - 1], b[..|b| - 1];
      assert a == p + [a[|a| - 1]] && b == q + [b[|b| - 1]];
      if Subsequence(a, q) {
        SubsequenceShorter(a, q);
      } else {
        SubsequenceShorter(p, q);
      }
    }
  }

  /** A completion still to come: of a stored write, or of a command that is neither write nor close. */
  function Owed(v: Watch): nat {
    if v.pending.None? || v.pending.value.1.code == VDC_CLOSE then 0
    else if v.pending.value.1.code == VDC_WRITE && v.handling != Taken then 0
    else 1
  }

  predicate WritePending(v: Watch) {
    v.pending.Some? && v.pending.value.1.code == VDC_WRITE
  }

  /** Commands handed out against those completed: each is completed, or owed, or was a close, or a
      write that was not stored. */
  ghost predicate Balances(v: Watch, fetches: seq<Handout>, stores: seq<Handout>, completions: nat) {
    |fetches| + |stores| == completions + ClosesIn(fetches) + |WritesIn(fetches)| + Owed(v)
  }

  /** The stored commands are among the writes, before the outstanding one until it is offered. */
  ghost predicate StoresFit(v: Watch, writes: seq<Handout>, stores: seq<Handout>) {
    && (WritePending(v) ==> writes != [] && writes[|writes| - 1] == v.pending.value)
    && Subsequence(stores, if WritePending(v) && NotOffered(v) then writes[..|writes| - 1] else writes)
  }

  lemma BalanceStep(v: Watch, e: Event, fetches: seq<Handout>, stores: seq<Handout>, completions: seq<Handout>)
    requires Permitted(v, e) && Balances(v, fetches, stores, |completions|)
    ensures Balances(Observe(v, e), fetches + FetchOf(e), stores + StoreOf(e), |completions + CompletionOf(e)|)
  {
    if FetchOf(e) == [] {
      assert fetches + [] == fetches;
    } else {
      InNext(fetches, FetchOf(e)[0]);
    }
  }

  lemma FitWeakens(v: Watch, writes: seq<Handout>, stores: seq<Handout>)
    requires StoresFit(v, writes, stores)
    ensures Subsequence(stores, writes)
    ensures WritePending(v) && NotOffered(v) ==> Subsequence(stores + [v.pending.value], writes)
  {
    hide Subsequence;
    if WritePending(v) && NotOffered(v) {
      assert writes == writes[..|writes| - 1] + [v.pending.value];
      SubsequenceNext(stores, writes[..|writes| - 1], v.pending.value);
    }
  }

  lemma FetchFits(v: Watch, e: Event, writes: seq<Handout>, stores: seq<Handout>)
    requires Permitted(v, e) && e.GetCommand? && StoresFit(v, writes, stores)
    ensures var more := if FetchOf(e) != [] && FetchOf(e)[0].1.code == VDC_WRITE then FetchOf(e) else [];
      StoresFit(Observe(v, e), writes + more, stores)
  {
    hide Subsequence;
    assert writes + [] == writes;
    if FetchOf(e) != [] {
      assert (writes + FetchOf(e))[..|writes|] == writes;
    }
  }

  lemma OthersFit(v: Watch, e: Event, writes: seq<Handout>, stores: seq<Handout>)
    requires Permitted(v, e) && !e.GetCommand? && StoresFit(v, writes, stores)
    ensures StoresFit(Observe(v, e), writes, stores + StoreOf(e))
  {
    hide Subsequence;
    FitWeakens(v, writes, stores);
    assert stores + [] == stores;
  }

  lemma FitStep(v: Watch, e: Event, fetches: seq<Handout>, stores: seq<Handout>)
    requires Permitted(v, e) && StoresFit(v, WritesIn(fetches), stores)
    ensures StoresFit(Observe(v, e), WritesIn(fetches + FetchOf(e)), stores + StoreOf(e))
  {
    hide StoresFit, WritesIn, Observe, Permitted;
    if e.GetCommand? {
      FetchFits(v, e, WritesIn(fetches), stores);
      assert stores + [] == stores && fetches + [] == fetches && WritesIn(fetches) + [] == WritesIn(fetches);
      if FetchOf(e) != [] {
        InNext(fetches, FetchOf(e)[0]);
      }
    } else {
      OthersFit(v, e, WritesIn(fetches), stores);
      assert fetches + [] == fetches;
    }
  }

  lemma {:induction false} LegalTracesBalance(trace: seq<Event>)
    requires Watched(trace).legal
    ensures Balances(Watched(trace), Fetches(trace), Stores(trace), |Completions(trace)|)
    ensures StoresFit(Watched(trace), WritesIn(Fetches(trace)), Stores(trace))
  {
    if trace != [] {
      hide Balances, StoresFit;
      var past := trace[..|trace| - 1];
      LegalTracesBalance(past);
      BalanceStep(Watched(past), trace[|trace| - 1], Fetches(past), Stores(past), Completions(past));
      FitStep(Watched(past), trace[|trace| - 1], Fetches(past), Stores(past));
    }
  }

  /** In a legal trace with nothing outstanding, commands are left uncompleted one for each VDC_Close
      handed out and one for each write that was not stored. So all are completed, once and in
      order, if and only if there is neither. */
  lemma {:induction false} CompletedUnlessClosedOrRefused(trace: seq<Event>)
    requires Watched(trace).legal && Watched(trace).pending == None
    ensures var fetches := Fetches(trace);
      && |fetches| - |Completions(trace)| == ClosesIn(fetches) + |WritesIn(fetches)| - |Stores(trace)|
      && (Completions(trace) == fetches <==> NoCloseIn(fetches) && Stores(trace) == WritesIn(fetches))
  {
    hide Watched, Fetches, Stores, Completions, Subsequence;
    LegalTracesBalance(trace);
    LegalTracesKeepOrder(trace);
    NoCloseCounts(Fetches(trace));
    SubsequenceShorter(Completions(trace), Fetches(trace));
    SubsequenceShorter(Stores(trace), WritesIn(Fetches(trace)));
  }

  /** "Each command must be completed exactly once" holds of a lifetime if and only if the server
      handed out no VDC_Close command and every write it handed out was stored. */
  lemma {:induction false} LifetimeCompletesAllIff(w: World, sink: Sink, calls: seq<Call>)
    ensures var trace := Lifetime(w, sink, calls).trace;
      var fetches := Fetches(trace);
      && |fetches| - |Completions(trace)| == ClosesIn(fetches) + |WritesIn(fetches)| - |Stores(trace)|
      && (Completions(trace) == fetches <==> NoCloseIn(fetches) && Stores(trace) == WritesIn(fetches))
  {
    hide Watched, Lifetime, Fetches, Stores, Completions;
    LifetimeKeepsRules(w, sink, calls);
    CompletedUnlessClosedOrRefused(Lifetime(w, sink, calls).trace);
  }
}
