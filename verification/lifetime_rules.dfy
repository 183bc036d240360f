/** The protocol rules and the state machine over whole client lifetimes. */
module LifetimeRules {
  import opened Words
  import opened VdiProtocol
  import opened SinkModel
  import opened Sessions
  import opened TurnFacts
  import opened ProtocolRules

  // ----- opening, releasing, closing

  lemma OpeningNothing(s: Session, opens: seq<Hresult>)
    ensures OpenedUpTo(s, opens, 0) == (s, true)
  {
  }

  lemma OpeningStep(s: Session, opens: seq<Hresult>, k: nat)
    requires k > 0 && OpenedUpTo(s, opens, k - 1).1
    ensures OpenedUpTo(s, opens, k) == OpenedOne(OpenedUpTo(s, opens, k - 1).0, OpenAnswer(opens, k - 1))
  {
  }

  lemma OpenedOneObeys(p: Session, hr: Hresult, live: set<nat>)
    requires Quiet(p, live) && p.state == STREAMING
    ensures var (q, ok) := OpenedOne(p, hr);
      if ok then
        && q.state == STREAMING && Quiet(q, live + {p.devicesOpened})
        && q.devicesOpened == p.devicesOpened + 1
        && Watched(q.trace).lost == Watched(p.trace).lost
      else
        && q.state == FAILED && Quiet(q, {}) && q.devicesOpened == p.devicesOpened
        && Watched(q.trace).lost == Watched(p.trace).lost + live
    ensures OpenedOne(p, hr).1 <==> !Failed(hr)
  {
    hide Watched;
    WatchNext(p, OpenDevice(p.devicesOpened, hr));
  }

  lemma {:induction false} OpeningObeys(s: Session, opens: seq<Hresult>, k: nat)
    requires Quiet(s, {}) && s.state == STREAMING
    ensures var (p, ok) := OpenedUpTo(s, opens, k);
      if ok then
        && p.state == STREAMING && p.devicesOpened == s.devicesOpened + k
        && Quiet(p, Ids(s.devicesOpened, s.devicesOpened + k))
        && Watched(p.trace).lost == Watched(s.trace).lost
      else
        && p.state == FAILED && s.devicesOpened <= p.devicesOpened < s.devicesOpened + k
        && Quiet(p, {})
        && Watched(p.trace).lost == Watched(s.trace).lost + Ids(s.devicesOpened, p.devicesOpened)
        && (forall j: nat :: j < p.devicesOpened - s.devicesOpened ==> !Failed(OpenAnswer(opens, j)))
        && Failed(OpenAnswer(opens, p.devicesOpened - s.devicesOpened))
    ensures OpenedUpTo(s, opens, k).1 <==> forall j: nat :: j < k ==> !Failed(OpenAnswer(opens, j))
  {
    hide Watched, Quiet, OpenedOne;
    if k > 0 {
      OpeningObeys(s, opens, k - 1);
      var (p, ok) := OpenedUpTo(s, opens, k - 1);
      if ok {
        OpeningStep(s, opens, k);
        OpenedOneObeys(p, OpenAnswer(opens, k - 1), Ids(s.devicesOpened, s.devicesOpened + k - 1));
      }
    }
  }

  /** Opening stops at its first failure. */
  lemma {:induction false} OpeningStopsAtFailure(s: Session, opens: seq<Hresult>, k: nat, n: nat)
    requires k <= n && !OpenedUpTo(s, opens, k).1
    ensures OpenedUpTo(s, opens, n) == OpenedUpTo(s, opens, k)
  {
    if k < n {
      OpeningStopsAtFailure(s, opens, k, n - 1);
    }
  }

  lemma {:induction false} ReleasingObeys(s: Session, base: nat, n: nat, k: nat)
    requires k <= n && Left(s, Ids(base, base + n))
    ensures var r := ReleasedUpTo(s, base, k);
      Left(r, Ids(base + k, base + n)) && r.state == s.state && Watched(r.trace).lost == Watched(s.trace).lost
  {
    hide Watched;
    if k > 0 {
      ReleasingObeys(s, base, n, k - 1);
      var r := ReleasedUpTo(s, base, k - 1);
      WatchNext(r, ReleaseDevice(base + k - 1));
      assert Ids(base + k - 1, base + n) - {base + k - 1} == Ids(base + k, base + n);
    }
  }

  lemma ShutObeys(w: World, s: Session)
    requires Quiet(s, {})
    ensures Quiet(Shut(w, s), {}) && Shut(w, s).state == CLOSED
    ensures Watched(Shut(w, s).trace).lost == Watched(s.trace).lost
  {
    hide Watched;
    if !s.closed {
      WatchNext(s, FlushSink);
      var f := if s.state == STREAMING || s.state == FLUSHING then SinkFlushed(w, s) else s;
      assert Quiet(f, {});
      WatchNext(f, CloseSet);
      WatchNext(f.Noted(CloseSet), ReleaseSet);
    }
  }

  // ----- between calls

  ghost predicate AtRest(s: Session) {
    Quiet(s, {}) && s.state != FLUSHING
  }

  lemma FreshAtRest(sink: Sink)
    ensures AtRest(Fresh(sink))
  {
    assert Watched([]) == UNWATCHED;
  }

  lemma ConnectedObeys(s: Session, com: bool, create: Hresult, config: Hresult, count: int)
    requires AtRest(s)
    ensures var (t, ok) := Connected(s, com, create, config, count);
      AtRest(t) && Watched(t.trace).lost == Watched(s.trace).lost && (ok ==> t.state == CONNECTED)
  {
    hide Watched;
    WatchNext(s, CreateSet(create));
    WatchNext(s.Noted(CreateSet(create)), ConfigureSet(config));
    WatchNext(s.Noted(CreateSet(create)).Noted(ConfigureSet(config)), ReleaseSet);
  }

  lemma AttachedObeys(s: Session, hr: Hresult)
    requires AtRest(s)
    ensures AtRest(Attached(s, hr).0) && Watched(Attached(s, hr).0.trace).lost == Watched(s.trace).lost
  {
    hide Watched;
    WatchNext(s, GetConfiguration(hr));
  }

  lemma LoopEndedObeys(w: World, s: Session, l: Loop)
    requires TurnResult(s, false, Ids(l.base, l.base + l.devices))
    ensures AtRest(LoopEnded(w, s, l))
    ensures LoopEnded(w, s, l).state == (if s.state == FLUSHING then CLOSED else s.state)
    ensures Watched(LoopEnded(w, s, l).trace).lost == Watched(s.trace).lost
  {
    hide Watched;
    ReleasingObeys(s, l.base, l.devices, l.devices);
    var r := ReleasedUpTo(s, l.base, l.devices);
    assert Quiet(r, {});
    ShutObeys(w, r);
  }

  /** The loop itself, from the devices just opened to the devices released. */
  lemma LoopObeys(w: World, s: Session, o: Session, l: Loop, script: seq<Reply>)
    requires Quiet(o, Ids(l.base, l.base + l.devices)) && o.state == STREAMING && l.devices > 0
    ensures var e := LoopEnded(w, Serve(w, LoopBegun(w, o), l, 0, script).0, l);
      !Serve(w, LoopBegun(w, o), l, 0, script).1 ==> AtRest(e) && e.state in {STREAMING, CLOSED, FAILED}
  {
    hide Watched;
    hide Serve;
    hide LoopEnded;
    var b := LoopBegun(w, o);
    assert Quiet(b, Ids(l.base, l.base + l.devices));
    ServeObeys(w, b, l, 0, script);
    var (e, running) := Serve(w, b, l, 0, script);
    if !running {
      LoopEndedObeys(w, e, l);
    }
  }

  lemma ServeNothing(w: World, s: Session, l: Loop, i: nat)
    ensures Serve(w, s, l, i, []) == (s, true)
  {
  }

  lemma ServeOne(w: World, s: Session, l: Loop, i: nat, script: seq<Reply>)
    requires script != []
    ensures var (t, running) := Turn(w, s, l, l.base + i, script[0]);
      Serve(w, s, l, i, script) == if running then Serve(w, t, l, Next(l, i), script[1..]) else (t, false)
  {
    hide Turn;
  }

  /** Every script with a reply at its end that ends the loop stops it: VD_E_CLOSE, VD_E_EOF, any
      other failure but a timeout, or a VDC_Close command. */
  lemma {:induction false} ServeStops(w: World, s: Session, l: Loop, i: nat, script: seq<Reply>, r: Reply)
    requires Stops(r)
    ensures !Serve(w, s, l, i, script + [r]).1
    decreases |script|
  {
    hide Turn;
    var whole := script + [r];
    if script == [] {
      StopReplyStops(w, s, l, l.base + i, r);
    } else {
      var (t, running) := Turn(w, s, l, l.base + i, whole[0]);
      assert whole[1..] == script[1..] + [r];
      if running {
        ServeStops(w, t, l, Next(l, i), script[1..], r);
      }
    }
  }

  /** A loop that has stopped takes nothing more from its script. */
  lemma {:induction false} ServeIgnoresRest(
    w: World, s: Session, l: Loop, i: nat, script: seq<Reply>, rest: seq<Reply>)
    requires !Serve(w, s, l, i, script).1
    ensures Serve(w, s, l, i, script + rest) == Serve(w, s, l, i, script)
    decreases |script|
  {
    hide Turn;
    var (t, running) := Turn(w, s, l, l.base + i, script[0]);
    assert (script + rest)[1..] == script[1..] + rest;
    if running {
      ServeIgnoresRest(w, t, l, Next(l, i), script[1..], rest);
    }
  }

  lemma {:induction false} ProcessedObeys(w: World, s: Session, opens: seq<Hresult>, script: seq<Reply>)
    requires AtRest(s)
    ensures AtRest(Processed(w, s, opens, script))
    ensures s.state != STREAMING ==> Processed(w, s, opens, script) == s
    ensures s.state == STREAMING ==> Processed(w, s, opens, script).state in {STREAMING, CLOSED, FAILED}
  {
    hide Watched;
    hide Serve;
    hide LoopEnded;
    hide OpenedUpTo;
    if s.state == STREAMING {
      var n := DeviceTotal(s.deviceCount);
      OpeningObeys(s, opens, n);
      var (o, ok) := OpenedUpTo(s, opens, n);
      if ok {
        var l := LoopOf(w, s, o);
        ServeStops(w, LoopBegun(w, o), l, 0, script, GONE);
        LoopObeys(w, s, o, l, script + [GONE]);
      }
    }
  }

  /** Where each public call leads, by what it was answered; one made out of turn leads nowhere, and
      FLUSHING never outlives the call that enters it. */
  predicate StateMove(call: Call, from: SessionState, to: SessionState) {
    && from != FLUSHING
    && match call
       case Connect(com, create, config, _) =>
         to == (if from != INIT then from else if com && !Failed(create) && !Failed(config) then CONNECTED else FAILED)
       case OpenDevices(hr) => to == (if from != CONNECTED then from else if Failed(hr) then FAILED else STREAMING)
       case ProcessCommands(_, _) => if from == STREAMING then to in {STREAMING, CLOSED, FAILED} else to == from
       case Close => to == CLOSED
       case _ => to == from
  }

  lemma {:induction false} CallObeys(w: World, s: Session, call: Call)
    requires AtRest(s)
    ensures AtRest(Apply(w, s, call))
    ensures StateMove(call, s.state, Apply(w, s, call).state)
  {
    hide Watched;
    hide Processed;
    hide Shut;
    match call
    case Connect(com, create, config, count) => ConnectedObeys(s, com, create, config, count);
    case OpenDevices(hr) => AttachedObeys(s, hr);
    case ProcessCommands(opens, script) => ProcessedObeys(w, s, opens, script);
    case Close => ShutObeys(w, s);
    case ArmFault(n) =>
    case FailNext =>
    case ResetFault =>
  }

  lemma {:induction false} CallsObey(w: World, s: Session, calls: seq<Call>)
    requires AtRest(s)
    ensures AtRest(ApplyAll(w, s, calls))
    decreases |calls|
  {
    hide Apply;
    hide AtRest;
    if calls != [] {
      CallObeys(w, s, calls[0]);
      CallsObey(w, Apply(w, s, calls[0]), calls[1..]);
    }
  }

  /** In no session the client can be in would the null-set exits of open_devices and
      process_commands be taken. */
  lemma {:induction false} SetIsLive(w: World, sink: Sink, calls: seq<Call>)
    ensures var s := ApplyAll(w, Fresh(sink), calls);
      s.state == CONNECTED || s.state == STREAMING ==> s.hasSet
  {
    hide ApplyAll, Watched;
    FreshAtRest(sink);
    CallsObey(w, Fresh(sink), calls);
  }

  /** Of any client, however it got where it is: connect works exactly once, before anything else and
      if all three answers do; otherwise the client is FAILED without a set, or, if it was past
      INIT, nothing happened. */
  lemma {:induction false} ConnectAnswers(
    w: World, sink: Sink, calls: seq<Call>, com: bool, create: Hresult, config: Hresult, count: int)
    ensures var s := ApplyAll(w, Fresh(sink), calls);
      var (t, ok) := Connected(s, com, create, config, count);
      if s.state == INIT then
        && (ok <==> com && !Failed(create) && !Failed(config))
        && t.state == (if ok then CONNECTED else FAILED)
        && t.hasSet == ok && t.deviceCount == count
        && t.trace == s.trace
             + (if com then [CreateSet(create)] else [])
             + (if com && !Failed(create) then [ConfigureSet(config)] else [])
             + (if com && !Failed(create) && Failed(config) then [ReleaseSet] else [])
      else !ok && t == s
  {
    hide ApplyAll, Watched;
    FreshAtRest(sink);
    CallsObey(w, Fresh(sink), calls);
  }

  /** Likewise open_devices works exactly when the client is CONNECTED and the server's configuration
      arrives; without it the client is FAILED for good. */
  lemma {:induction false} OpenDevicesAnswers(w: World, sink: Sink, calls: seq<Call>, hr: Hresult)
    ensures var s := ApplyAll(w, Fresh(sink), calls);
      var (t, ok) := Attached(s, hr);
      if s.state == CONNECTED then
        && (ok <==> !Failed(hr))
        && t.state == (if ok then STREAMING else FAILED)
        && t.hasSet && t.trace == s.trace + [GetConfiguration(hr)]
        && (!ok ==> forall later: seq<Call> :: ApplyAll(w, t, later).state in {FAILED, CLOSED})
      else !ok && t == s
  {
    hide ApplyAll, Watched;
    FreshAtRest(sink);
    CallsObey(w, Fresh(sink), calls);
    var s := ApplyAll(w, Fresh(sink), calls);
    SetIsLive(w, sink, calls);
    AttachedObeys(s, hr);
    var t := Attached(s, hr).0;
    if t.state == FAILED {
      forall later: seq<Call>
        ensures ApplyAll(w, t, later).state in {FAILED, CLOSED}
      {
        StatesOnlyAdvance(w, t, later);
      }
    }
  }

  /** Likewise close flushes exactly a streaming client, gives up the set if there is one, in that
      order, and does nothing the second time. */
  lemma {:induction false} CloseAnswers(w: World, sink: Sink, calls: seq<Call>)
    ensures var s := ApplyAll(w, Fresh(sink), calls);
      var t := Shut(w, s);
      if s.state == CLOSED then t == s
      else
        && t.state == CLOSED && t.closed && !t.hasSet
        && t.sink == (if s.state == STREAMING then Flushed(s.sink, w.os) else s.sink)
        && t.trace == s.trace
             + (if s.state == STREAMING then [FlushSink] else [])
             + (if s.hasSet then [CloseSet, ReleaseSet] else [])
  {
    hide ApplyAll, Watched, Drained;
    FreshAtRest(sink);
    CallsObey(w, Fresh(sink), calls);
  }

  function Rank(state: SessionState): nat {
    match state
    case INIT => 0
    case CONNECTED => 1
    case STREAMING => 2
    case FLUSHING => 3
    case FAILED => 4
    case CLOSED => 5
  }

  /** Over every call sequence from any reachable session the state never goes back, a failed
      session can only be closed, and a closed one stays closed. */
  lemma {:induction false} StatesOnlyAdvance(w: World, s: Session, calls: seq<Call>)
    requires AtRest(s)
    ensures var t := ApplyAll(w, s, calls);
      && Rank(s.state) <= Rank(t.state)
      && t.state != FLUSHING
      && (s.state == FAILED ==> t.state == FAILED || t.state == CLOSED)
      && (s.state == CLOSED ==> t.state == CLOSED)
      && (t.closed <==> t.state == CLOSED)
    decreases |calls|
  {
    hide Apply;
    hide Watched;
    if calls != [] {
      CallObeys(w, s, calls[0]);
      StatesOnlyAdvance(w, Apply(w, s, calls[0]), calls[1..]);
    }
  }

  lemma DestroyedObeys(w: World, s: Session)
    requires AtRest(s)
    ensures AtRest(Destroyed(w, s))
    ensures Destroyed(w, s).state == if s.state == INIT then INIT else CLOSED
  {
    hide Watched;
    ShutObeys(w, s);
  }

  /** Every lifetime keeps the protocol rules, whatever the server, the file system and the clock
      do and whatever order the client is called in; at its end no device, set or command is left
      over: a set that was created was released once, it was closed once exactly when connect
      succeeded, and every device opened was released once or belongs to a failed opening. */
  lemma {:induction false} LifetimeKeepsRules(w: World, sink: Sink, calls: seq<Call>)
    ensures var v := Watched(Lifetime(w, sink, calls).trace);
      && v.legal && v.phase in {NoSet, SetGone}
      && v.live == {} && v.pending == None
      && v.created == v.setReleases <= 1 && v.configured == v.closes <= 1
      && v.seen == v.released + v.lost && v.released !! v.lost
  {
    hide Watched;
    hide Destroyed;
    hide ApplyAll;
    FreshAtRest(sink);
    CallsObey(w, Fresh(sink), calls);
    var s := ApplyAll(w, Fresh(sink), calls);
    DestroyedObeys(w, s);
    LegalTracesFit(Destroyed(w, s).trace);
  }

  /** A run that opens its devices completely loses none; one whose opening fails loses exactly the
      devices it had opened until then, so none just when the very first OpenDevice failed. */
  lemma {:induction false} FailedOpeningLoses(w: World, s: Session, opens: seq<Hresult>, script: seq<Reply>)
    requires AtRest(s) && s.state == STREAMING
    ensures var n := DeviceTotal(s.deviceCount);
      var (o, ok) := OpenedUpTo(s, opens, n);
      && (ok <==> forall j: nat :: j < n ==> !Failed(OpenAnswer(opens, j)))
      && (!ok ==>
           && Processed(w, s, opens, script) == o && o.state == FAILED
           && Watched(o.trace).lost - Watched(s.trace).lost == Ids(s.devicesOpened, o.devicesOpened)
           && (Watched(o.trace).lost == Watched(s.trace).lost <==> Failed(OpenAnswer(opens, 0))))
  {
    hide Watched;
    hide OpenedUpTo;
    hide LoopEnded;
    var n := DeviceTotal(s.deviceCount);
    OpeningObeys(s, opens, n);
    var (o, ok) := OpenedUpTo(s, opens, n);
    if !ok {
      LostAreSeen(s.trace);
      var missing := Ids(s.devicesOpened, o.devicesOpened);
      assert missing !! Watched(s.trace).lost;
      if o.devicesOpened == s.devicesOpened {
        assert missing == {};
      } else {
        assert s.devicesOpened in missing;
        assert !Failed(OpenAnswer(opens, 0));
      }
    }
  }

  lemma LostAreSeen(trace: seq<Event>)
    requires Watched(trace).legal
    ensures Watched(trace).lost <= Watched(trace).seen
  {
    LegalTracesFit(trace);
  }

  /** In a trace without a failed OpenDevice nothing is lost. */
  lemma {:induction false} NoFailedOpeningNothingLost(trace: seq<Event>)
    requires forall k :: 0 <= k < |trace| && trace[k].OpenDevice? ==> !Failed(trace[k].hr)
    ensures Watched(trace).lost == {}
  {
    if trace != [] {
      NoFailedOpeningNothingLost(trace[..|trace| - 1]);
    }
  }
}
