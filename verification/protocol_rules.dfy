/**
 The VDI rules as an observer: it reads a trace of calls and says whether each was permitted when
 it was made. It sees nothing of the client's state. It is lenient in one place: after a failed
 OpenDevice it counts the devices open until then as lost, no longer as live, because the client
 drops its references to them without releasing them; so they do not make the later CloseSet
 illegal. `Watch.lost` keeps them, and LifetimeRules says exactly which devices get there.
 */
module ProtocolRules {
  import opened Words
  import opened VdiProtocol
  import opened SinkModel
  import opened Sessions

  datatype SetPhase = NoSet | Created | Rejected | Configured | AttachedToServer | SetClosed | SetGone

  /** What became of the command a device handed out: nothing yet, a write was counted, its data was
      taken or declined by the sink. */
  datatype Handling = Fetched | Tallied | Taken | Declined

  datatype Watch = Watch(
    legal: bool, phase: SetPhase,
    seen: set<nat>, live: set<nat>, released: set<nat>, lost: set<nat>,
    pending: Option<(nat, Command)>, handling: Handling,
    created: nat, configured: nat, closes: nat, setReleases: nat)

  const UNWATCHED := Watch(true, NoSet, {}, {}, {}, {}, None, Fetched, 0, 0, 0, 0)

  /** A command may be left uncompleted only if it asked for the end, or was a write that was
      counted and whose data the sink did not take. */
  predicate MayBeDropped(cmd: Command, handling: Handling) {
    cmd.code == VDC_CLOSE || (cmd.code == VDC_WRITE && (handling == Tallied || handling == Declined))
  }

  predicate Permitted(v: Watch, e: Event) {
    match e
    case CreateSet(_) => v.phase == NoSet
    case ConfigureSet(_) => v.phase == Created
    case GetConfiguration(_) => v.phase == Configured
    case OpenDevice(dev, _) => v.phase == AttachedToServer && dev !in v.seen && v.pending == None
    case GetCommand(dev, _) => v.phase == AttachedToServer && dev in v.live && v.pending == None
    case Store(dev, cmd, _) => v.pending == Some((dev, cmd)) && cmd.code == VDC_WRITE && v.handling == Tallied
    case Complete(dev, cmd, _) =>
      && v.pending == Some((dev, cmd))
      && cmd.code != VDC_CLOSE
      && (cmd.code == VDC_WRITE ==> v.handling == Taken)
    case ReleaseDevice(dev) =>
      && v.phase == AttachedToServer && dev in v.live
      && (v.pending.Some? && v.pending.value.0 == dev ==> MayBeDropped(v.pending.value.1, v.handling))
    case FlushSink => v.phase == AttachedToServer
    case CloseSet => (v.phase == Configured || v.phase == AttachedToServer) && v.live == {} && v.pending == None
    case ReleaseSet => v.phase == Rejected || v.phase == SetClosed
    case Counted(size, _) =>
      && v.pending.Some? && v.handling == Fetched
      && v.pending.value.1.code == VDC_WRITE && v.pending.value.1.size == size
    case Injected => v.phase == AttachedToServer
    case StallWarning(_) => v.phase == AttachedToServer && v.pending == None
  }

  function Observe(v: Watch, e: Event): Watch {
    var u := v.(legal := v.legal && Permitted(v, e));
    match e
    case CreateSet(hr) => if Failed(hr) then u else u.(phase := Created, created := u.created + 1)
    case ConfigureSet(hr) =>
      if Failed(hr) then u.(phase := Rejected) else u.(phase := Configured, configured := u.configured + 1)
    case GetConfiguration(hr) => if Failed(hr) then u else u.(phase := AttachedToServer)
    case OpenDevice(dev, hr) =>
      if Failed(hr) then u.(lost := u.lost + u.live, live := {})
      else u.(seen := u.seen + {dev}, live := u.live + {dev})
    case GetCommand(dev, reply) =>
      if Failed(reply.hr) || reply.cmd.None? then u
      else u.(pending := Some((dev, reply.cmd.value)), handling := Fetched)
    case Counted(_, _) => u.(handling := Tallied)
    case Store(_, _, ok) => u.(handling := if ok then Taken else Declined)
    case Complete(_, _, _) => u.(pending := None)
    case ReleaseDevice(dev) =>
      u.(live := u.live - {dev}, released := u.released + {dev},
         pending := if u.pending.Some? && u.pending.value.0 == dev then None else u.pending)
    case CloseSet => u.(phase := SetClosed, closes := u.closes + 1)
    case ReleaseSet => u.(phase := SetGone, setReleases := u.setReleases + 1)
    case _ => u
  }

  function Watched(trace: seq<Event>): Watch {
    if trace == [] then UNWATCHED else Observe(Watched(trace[..|trace| - 1]), trace[|trace| - 1])
  }

  lemma WatchNext(s: Session, e: Event)
    ensures Watched(s.Noted(e).trace) == Observe(Watched(s.trace), e)
  {
    assert (s.trace + [e])[..|s.trace|] == s.trace;
  }

  // ----- what a legal trace implies, whoever made it

  ghost predicate CountsFit(v: Watch) {
    && v.created == (if v.phase == NoSet then 0 else 1)
    && v.configured == (if v.phase in {Configured, AttachedToServer, SetClosed} then 1
                        else if v.phase == SetGone then v.closes else 0)
    && v.closes <= 1
    && (v.closes == 1 ==> v.phase in {SetClosed, SetGone})
    && (v.phase == SetClosed ==> v.closes == 1)
    && v.setReleases == (if v.phase == SetGone then 1 else 0)
    && v.seen == v.live + v.released + v.lost
    && v.live !! v.released && v.live !! v.lost && v.released !! v.lost
  }

  lemma {:induction false} LegalTracesFit(trace: seq<Event>)
    requires Watched(trace).legal
    ensures CountsFit(Watched(trace))
  {
    if trace != [] {
      LegalTracesFit(trace[..|trace| - 1]);
      ObserveFits(Watched(trace[..|trace| - 1]), trace[|trace| - 1]);
    }
  }

  lemma ObserveFits(v: Watch, e: Event)
    requires CountsFit(v) && Permitted(v, e)
    ensures CountsFit(Observe(v, e))
  {
  }

  // ----- order

  type Handout = (nat, Command)

  predicate Subsequence(a: seq<Handout>, b: seq<Handout>) {
    if a == [] then true
    else if b == [] then false
    else
      || (a[|a| - 1] == b[|b| - 1] && Subsequence(a[..|a| - 1], b[..|b| - 1]))
      || Subsequence(a, b[..|b| - 1])
  }

  lemma SubsequenceNext(a: seq<Handout>, b: seq<Handout>, x: Handout)
    requires Subsequence(a, b)
    ensures Subsequence(a, b + [x]) && Subsequence(a + [x], b + [x])
  {
    assert (a + [x])[..|a|] == a && (b + [x])[..|b|] == b;
  }

  function FetchOf(e: Event): seq<Handout> {
    match e
    case GetCommand(dev, reply) => if Failed(reply.hr) || reply.cmd.None? then [] else [(dev, reply.cmd.value)]
    case _ => []
  }

  function StoreOf(e: Event): seq<Handout> {
    match e
    case Store(dev, cmd, ok) => if ok then [(dev, cmd)] else []
    case _ => []
  }

  function CompletionOf(e: Event): seq<Handout> {
    match e
    case Complete(dev, cmd, _) => [(dev, cmd)]
    case _ => []
  }

  /** The commands handed out by GetCommand, those whose data the sink took, those for which
      CompleteCommand was called. */
  function Fetches(trace: seq<Event>): seq<Handout> {
    if trace == [] then [] else Fetches(trace[..|trace| - 1]) + FetchOf(trace[|trace| - 1])
  }

  function Stores(trace: seq<Event>): seq<Handout> {
    if trace == [] then [] else Stores(trace[..|trace| - 1]) + StoreOf(trace[|trace| - 1])
  }

  function Completions(trace: seq<Event>): seq<Handout> {
    if trace == [] then [] else Completions(trace[..|trace| - 1]) + CompletionOf(trace[|trace| - 1])
  }

  /** The part of the fetches that lies behind the outstanding command. */
  function Behind(v: Watch, fetches: seq<Handout>): seq<Handout> {
    if v.pending.Some? && fetches != [] then fetches[..|fetches| - 1] else fetches
  }

  /** The sink has not been asked about the outstanding command. */
  predicate NotOffered(v: Watch) {
    v.handling == Fetched || v.handling == Tallied
  }

  ghost predicate InOrder(v: Watch, fetches: seq<Handout>, stores: seq<Handout>, completions: seq<Handout>) {
    && (v.pending.Some? ==> fetches != [] && fetches[|fetches| - 1] == v.pending.value)
    && Subsequence(completions, Behind(v, fetches))
    && Subsequence(stores, if NotOffered(v) then Behind(v, fetches) else fetches)
  }

  /** In a legal trace each command handed out is stored at most once and completed at most once,
      both in the order of the hand-outs; so for any one device as well. */
  lemma {:induction false} LegalTracesKeepOrder(trace: seq<Event>)
    requires Watched(trace).legal
    ensures InOrder(Watched(trace), Fetches(trace), Stores(trace), Completions(trace))
    ensures Subsequence(Completions(trace), Fetches(trace)) && Subsequence(Stores(trace), Fetches(trace))
  {
    if trace != [] {
      var past := trace[..|trace| - 1];
      LegalTracesKeepOrder(past);
      OrderStep(Watched(past), trace[|trace| - 1], Fetches(past), Stores(past), Completions(past));
    }
    OrderWeakens(Watched(trace), Fetches(trace), Stores(trace), Completions(trace));
  }

  lemma OrderWeakens(v: Watch, fetches: seq<Handout>, stores: seq<Handout>, completions: seq<Handout>)
    requires InOrder(v, fetches, stores, completions)
    ensures Subsequence(completions, fetches) && Subsequence(stores, fetches)
    ensures v.pending.Some? ==> Subsequence(completions + [v.pending.value], fetches)
    ensures v.pending.Some? && NotOffered(v) ==> Subsequence(stores + [v.pending.value], fetches)
  {
    if v.pending.Some? {
      var behind := Behind(v, fetches);
      assert fetches == behind + [v.pending.value];
      SubsequenceNext(completions, behind, v.pending.value);
      if NotOffered(v) {
        SubsequenceNext(stores, behind, v.pending.value);
      }
    }
  }

  lemma FetchInOrder(v: Watch, e: Event, fetches: seq<Handout>, stores: seq<Handout>, completions: seq<Handout>)
    requires InOrder(v, fetches, stores, completions) && Permitted(v, e) && e.GetCommand?
    ensures InOrder(Observe(v, e), fetches + FetchOf(e), stores, completions)
  {
    hide Subsequence;
    OrderWeakens(v, fetches, stores, completions);
    if FetchOf(e) == [] {
      assert fetches + [] == fetches;
    } else {
      assert (fetches + FetchOf(e))[..|fetches|] == fetches;
    }
  }

  lemma StoreInOrder(v: Watch, e: Event, fetches: seq<Handout>, stores: seq<Handout>, completions: seq<Handout>)
    requires InOrder(v, fetches, stores, completions) && Permitted(v, e) && e.Store?
    ensures InOrder(Observe(v, e), fetches, stores + StoreOf(e), completions)
  {
    hide Subsequence;
    OrderWeakens(v, fetches, stores, completions);
    assert stores + [] == stores;
  }

  lemma CompleteInOrder(v: Watch, e: Event, fetches: seq<Handout>, stores: seq<Handout>, completions: seq<Handout>)
    requires InOrder(v, fetches, stores, completions) && Permitted(v, e) && e.Complete?
    ensures InOrder(Observe(v, e), fetches, stores, completions + CompletionOf(e))
  {
    hide Subsequence;
    OrderWeakens(v, fetches, stores, completions);
  }

  lemma OtherInOrder(v: Watch, e: Event, fetches: seq<Handout>, stores: seq<Handout>, completions: seq<Handout>)
    requires InOrder(v, fetches, stores, completions) && Permitted(v, e)
    requires !e.GetCommand? && !e.Store? && !e.Complete?
    ensures InOrder(Observe(v, e), fetches, stores, completions)
  {
    hide Subsequence;
    OrderWeakens(v, fetches, stores, completions);
  }

  lemma OrderStep(v: Watch, e: Event, fetches: seq<Handout>, stores: seq<Handout>, completions: seq<Handout>)
    requires InOrder(v, fetches, stores, completions) && Permitted(v, e)
    ensures InOrder(Observe(v, e), fetches + FetchOf(e), stores + StoreOf(e), completions + CompletionOf(e))
  {
    hide InOrder, Observe, Permitted;
    assert fetches + [] == fetches && stores + [] == stores && completions + [] == completions;
    match e
    case GetCommand(_, _) => FetchInOrder(v, e, fetches, stores, completions);
    case Store(_, _, _) => StoreInOrder(v, e, fetches, stores, completions);
    case Complete(_, _, _) => CompleteInOrder(v, e, fetches, stores, completions);
    case _ => OtherInOrder(v, e, fetches, stores, completions);
  }

  // ----- the client's side of the rules

  function Ids(first: nat, end: nat): (ids: set<nat>)
    ensures forall d: nat :: d in ids <==> first <= d < end
  {
    if end <= first then {} else Ids(first, end - 1) + {end - 1}
  }

  predicate PhaseFits(s: Session, phase: SetPhase) {
    match s.state
    case INIT => !s.hasSet && phase == NoSet
    case CONNECTED => s.hasSet && phase == Configured
    case STREAMING => s.hasSet && phase == AttachedToServer
    case FLUSHING => s.hasSet && phase == AttachedToServer
    case CLOSED => !s.hasSet && (phase == NoSet || phase == SetGone)
    case FAILED =>
      if s.hasSet then phase == Configured || phase == AttachedToServer else phase == NoSet || phase == SetGone
  }

  ghost predicate Obeys(s: Session, live: set<nat>) {
    var v := Watched(s.trace);
    && v.legal && v.live == live
    && PhaseFits(s, v.phase)
    && (s.closed <==> s.state == CLOSED)
    && (forall d :: d in v.seen ==> d < s.devicesOpened)
  }

  /** No command is outstanding. */
  ghost predicate Quiet(s: Session, live: set<nat>) {
    Obeys(s, live) && Watched(s.trace).pending == None
  }

  /** The loop was left: at most one command is outstanding, which may be dropped, and then the
      session failed or the command asked for the end. */
  ghost predicate Left(s: Session, live: set<nat>) {
    var v := Watched(s.trace);
    && Obeys(s, live) && v.phase == AttachedToServer
    && (v.pending.Some? ==>
         && v.pending.value.0 in live
         && MayBeDropped(v.pending.value.1, v.handling)
         && (s.state == FAILED || v.pending.value.1.code == VDC_CLOSE))
  }

  ghost predicate TurnResult(t: Session, running: bool, live: set<nat>) {
    && t.state in {STREAMING, FLUSHING, FAILED}
    && (if running then t.state == STREAMING && Quiet(t, live) else Left(t, live))
  }

  /** In the middle of a turn: `cmd` of device `dev` is outstanding. */
  ghost predicate Busy(s: Session, live: set<nat>, dev: nat, cmd: Command, handling: Handling) {
    var v := Watched(s.trace);
    && Obeys(s, live) && s.state == STREAMING && dev in live
    && v.pending == Some((dev, cmd)) && v.handling == handling
  }

  lemma RefusedObeys(w: World, s: Session, hr: Hresult, gcEnd: u64, live: set<nat>)
    requires Quiet(s, live) && s.state == STREAMING
    ensures TurnResult(Refused(w, s, hr, gcEnd).0, Refused(w, s, hr, gcEnd).1, live)
  {
    hide Watched;
    WatchNext(s, FlushSink);
    WatchNext(s, StallWarning(gcEnd));
  }

  /** Two sessions that differ in nothing the rules can see. */
  ghost predicate SameConduct(s: Session, t: Session) {
    && t.trace == s.trace && t.state == s.state && t.hasSet == s.hasSet
    && t.closed == s.closed && t.devicesOpened == s.devicesOpened
  }

  lemma CountObeys(s: Session, dev: nat, cmd: Command, live: set<nat>)
    requires Busy(s, live, dev, cmd, Fetched) && cmd.code == VDC_WRITE
    ensures Busy(CountChunk(s, cmd.size), live, dev, cmd, Tallied)
  {
    hide Watched;
    var e := Counted(cmd.size, Lent(s));
    WatchNext(s, e);
    assert SameConduct(s.Noted(e), CountChunk(s, cmd.size));
  }

  lemma StoreObeys(w: World, s: Session, dev: nat, cmd: Command, live: set<nat>)
    requires Busy(s, live, dev, cmd, Fetched) && cmd.code == VDC_WRITE
    ensures var (t, running, us) := StoreChunk(w, s, dev, cmd);
      if running then Busy(t, live, dev, cmd, Taken) else TurnResult(t, running, live)
  {
    hide Watched, CountChunk, StoreCounted;
    CountObeys(s, dev, cmd, live);
    StoredObeys(w, CountChunk(s, cmd.size), s, dev, cmd, live);
  }

  lemma StoredObeys(w: World, c: Session, s: Session, dev: nat, cmd: Command, live: set<nat>)
    requires c == CountChunk(s, cmd.size)
    requires Busy(c, live, dev, cmd, Tallied) && cmd.code == VDC_WRITE
    ensures var (t, running, us) := StoreChunk(w, s, dev, cmd);
      if running then Busy(t, live, dev, cmd, Taken) else TurnResult(t, running, live)
  {
    hide Watched;
    var (t, running, us) := StoreChunk(w, s, dev, cmd);
    if ValidateWriteCommand(Some(cmd)) && c.sink.handle {
      var e := Store(dev, cmd, running);
      WatchNext(c, e);
      assert t.trace == c.Noted(e).trace;
    } else {
      assert t.trace == c.trace;
    }
  }

  lemma AcknowledgeObeys(
    w: World, s: Session, l: Loop, dev: nat, cmd: Command, hr: Hresult, fetched: nat, sinkUs: u64, live: set<nat>)
    requires Busy(s, live, dev, cmd, if cmd.code == VDC_WRITE then Taken else Fetched) && cmd.code != VDC_CLOSE
    ensures var (t, running) := Acknowledge(w, s, l, dev, cmd, hr, fetched, sinkUs);
      TurnResult(t, running, live)
  {
    hide Watched;
    WatchNext(s, Complete(dev, cmd, hr));
    WatchNext(s.Noted(Complete(dev, cmd, hr)), Injected);
  }

  lemma {:induction false} HandleObeys(
    w: World, s: Session, l: Loop, dev: nat, cmd: Command, completion: Hresult, fetched: nat, live: set<nat>)
    requires Busy(s, live, dev, cmd, Fetched)
    ensures var (t, running) := Handle(w, s, l, dev, cmd, completion, fetched);
      TurnResult(t, running, live)
  {
    hide Watched, StoreChunk, Acknowledge;
    var d := s.(ticks := s.ticks + 2);
    assert Busy(d, live, dev, cmd, Fetched);
    if cmd.code == VDC_WRITE {
      StoreObeys(w, d, dev, cmd, live);
      var (t, running, sinkUs) := StoreChunk(w, d, dev, cmd);
      if running {
        AcknowledgeObeys(w, t, l, dev, cmd, completion, fetched, sinkUs, live);
      }
    } else if cmd.code != VDC_CLOSE {
      AcknowledgeObeys(w, d, l, dev, cmd, completion, fetched, 0, live);
    }
  }

  lemma PollObeys(w: World, s: Session, dev: nat, reply: Reply, live: set<nat>)
    requires Quiet(s, live) && s.state == STREAMING && dev in live
    ensures if Failed(reply.hr) || reply.cmd.None? then Quiet(Polled(w, s, dev, reply), live)
      else Busy(Polled(w, s, dev, reply), live, dev, reply.cmd.value, Fetched)
  {
    hide Watched;
    WatchNext(s, GetCommand(dev, reply));
  }

  lemma {:induction false} TurnObeys(w: World, s: Session, l: Loop, dev: nat, reply: Reply, live: set<nat>)
    requires Quiet(s, live) && s.state == STREAMING && dev in live
    ensures TurnResult(Turn(w, s, l, dev, reply).0, Turn(w, s, l, dev, reply).1, live)
  {
    hide Watched, Handle, Refused;
    PollObeys(w, s, dev, reply, live);
    var g := Polled(w, s, dev, reply);
    if Failed(reply.hr) {
      RefusedObeys(w, g, reply.hr, w.clock(s.ticks + 1), live);
    } else if reply.cmd.Some? {
      HandleObeys(w, g, l, dev, reply.cmd.value, reply.completion, s.ticks, live);
    }
  }

  /** Every turn of every loop starts with no command outstanding, and the loop ends with at most
      one, which may be dropped. */
  lemma {:induction false} ServeObeys(w: World, s: Session, l: Loop, i: nat, script: seq<Reply>)
    requires Quiet(s, Ids(l.base, l.base + l.devices)) && s.state == STREAMING && i < l.devices
    ensures TurnResult(Serve(w, s, l, i, script).0, Serve(w, s, l, i, script).1, Ids(l.base, l.base + l.devices))
    decreases |script|
  {
    hide Turn;
    if script != [] {
      var live := Ids(l.base, l.base + l.devices);
      TurnObeys(w, s, l, l.base + i, script[0], live);
      var (t, running) := Turn(w, s, l, l.base + i, script[0]);
      if running {
        ServeObeys(w, t, l, Next(l, i), script[1..]);
      }
    }
  }
}
