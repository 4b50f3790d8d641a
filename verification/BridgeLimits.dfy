/**
 Where the bridge's guarantees end: exactly when the registration is sure to come first, exactly when a
 publish crashes, and what Drain does and does not wait for.
 */
module BridgeLimits {
  import opened Common
  import opened Envelopes
  import opened Frames
  import opened Sessions
  import opened Protocol
  import opened ProtocolLife
  import opened ProtocolLock
  import opened ProtocolFlow
  import opened ProtocolShape
  import opened ProtocolCount
  import opened ProtocolOpening
  import opened ProtocolRuns

  // ----- what a state can lead to

  /** Some run from here reaches the goal. */
  ghost predicate CanReach(c: Config, s: State, goal: State -> bool) {
    exists acts, t :: Runs(c, s, acts, t) && goal(t)
  }

  lemma ReachRun(c: Config, s: State, acts: seq<Action>, t: State, goal: State -> bool)
    requires Runs(c, s, acts, t) && CanReach(c, t, goal)
    ensures CanReach(c, s, goal)
  {
    hide Can, Do;
    var acts', u :| Runs(c, t, acts', u) && goal(u);
    RunsJoin(c, s, acts, t, acts', u);
  }

  lemma ReachStep(c: Config, s: State, a: Action, goal: State -> bool)
    requires Can(c, s, a) && CanReach(c, Do(c, s, a), goal)
    ensures CanReach(c, s, goal)
  {
    hide Can, Do;
    var acts, t :| Runs(c, Do(c, s, a), acts, t) && goal(t);
    assert ([a] + acts)[1..] == acts;
    assert Runs(c, s, [a] + acts, t);
  }

  lemma ReachNow(c: Config, s: State, goal: State -> bool)
    requires goal(s)
    ensures CanReach(c, s, goal)
  {
    assert Runs(c, s, [], s);
  }

  // ----- one publish call, alone

  /** The send lock and, with backpressure on, a slot are free, and some connect has succeeded. */
  predicate CanPublish(c: Config, s: State) {
    s.fault.None? && s.core.started && s.mu.None? && (c.slots.Some? ==> s.inflight < c.slots.value)
  }

  /** The steps of publish call `n` up to reading the stream field under the lock. */
  function SendScript(n: nat, e: EnvelopeValue, id: Uuid, t: Instant, u: Instant): seq<Action> {
    [PubCall(e), Pubs(n, Admit(id, t, u)), Locking(Publisher(n), Acquire), Locking(Publisher(n), Capture)]
  }

  function AfterPublish(s: State, c: Config, e: EnvelopeValue, id: Uuid, t: Instant, u: Instant): State {
    var n := |s.pubs|;
    var m := if c.slots.Some? then s.inflight + 1 else s.inflight;
    var p := Pub(Normalized(e, id, t, u), Own, true, false);
    var r := s.(pubs := s.pubs + [p], inflight := m, mu := Some(Publisher(n)));
    if s.core.stream.None? then r.(fault := Some(SendOnNil(Publisher(n))))
    else r.(pubs := s.pubs + [p.(io := Busy(s.core.stream.value))])
  }

  /** A new call that has taken its slot and wants the lock. */
  function Admitted(s: State, c: Config, e: EnvelopeValue, id: Uuid, t: Instant, u: Instant): State {
    s.(pubs := s.pubs + [Pub(Normalized(e, id, t, u), Want, true, false)],
       inflight := if c.slots.Some? then s.inflight + 1 else s.inflight)
  }

  lemma AdmitRuns(c: Config, s: State, e: EnvelopeValue, id: Uuid, t: Instant, u: Instant)
    requires CanPublish(c, s)
    ensures Runs(c, s, [PubCall(e), Pubs(|s.pubs|, Admit(id, t, u))], Admitted(s, c, e, id, t, u))
  {
    hide Normalized;
    var s1 := Do(c, s, PubCall(e));
    var a := Pubs(|s.pubs|, Admit(id, t, u));
    assert Do(c, s1, a).pubs == Admitted(s, c, e, id, t, u).pubs;
    RunTwo(c, s, PubCall(e), s1, a, Admitted(s, c, e, id, t, u));
  }

  lemma CaptureRuns(c: Config, s: State, e: EnvelopeValue, id: Uuid, t: Instant, u: Instant)
    requires CanPublish(c, s)
    ensures Runs(c, Admitted(s, c, e, id, t, u),
                 [Locking(Publisher(|s.pubs|), Acquire), Locking(Publisher(|s.pubs|), Capture)],
                 AfterPublish(s, c, e, id, t, u))
  {
    hide Normalized;
    var n := |s.pubs|;
    var p := Pub(Normalized(e, id, t, u), Want, true, false);
    var s2 := Admitted(s, c, e, id, t, u);
    var s3 := Do(c, s2, Locking(Publisher(n), Acquire));
    assert s3.pubs == s.pubs + [p.(io := Own)];
    var s4 := Do(c, s3, Locking(Publisher(n), Capture));
    assert s.core.stream.Some? ==> s4.pubs == s.pubs + [p.(io := Busy(s.core.stream.value))];
    RunTwo(c, s2, Locking(Publisher(n), Acquire), s3, Locking(Publisher(n), Capture), s4);
  }

  lemma PublishRuns(c: Config, s: State, e: EnvelopeValue, id: Uuid, t: Instant, u: Instant)
    requires CanPublish(c, s)
    ensures Runs(c, s, SendScript(|s.pubs|, e, id, t, u), AfterPublish(s, c, e, id, t, u))
  {
    hide Can, Do, Admitted, AfterPublish;
    var n := |s.pubs|;
    AdmitRuns(c, s, e, id, t, u);
    CaptureRuns(c, s, e, id, t, u);
    var admit := [PubCall(e), Pubs(n, Admit(id, t, u))];
    var send := [Locking(Publisher(n), Acquire), Locking(Publisher(n), Capture)];
    RunsJoin(c, s, admit, Admitted(s, c, e, id, t, u), send, AfterPublish(s, c, e, id, t, u));
    assert admit + send == SendScript(n, e, id, t, u);
  }

  /**
   Every crash of a reachable state: a send through a nil stream needs an earlier connect and its
   cleanup; a receive through one needs the run loop to have exited on a done context; a send on a
   closed channel needs Close.
   */
  lemma CrashesExplained(c: Config, s: State)
    requires Reachable(c, s) && s.fault.Some?
    ensures match s.fault.value
            case SendOnNil(_) => s.core.stream.None?
            case RecvOnNil(_) => s.core.stream.None? && s.core.run.Exited? && s.core.runDone
            case PushOnClosed(_) => s.core.closed
  {
    hide Can, Do, LockInv, FlowInv, ShapeInv, CountInv, OpeningInv;
    ReachableInv(c, s);
  }

  lemma ReadCrashes(c: Config, s: State, i: nat, r: ReaderStep)
    requires s.fault.None? && CanRead(c, s, i, r)
    ensures DoRead(c, s, i, r).fault.Some? <==> (r.EnterRecv? && s.core.stream.None?) || (r.Push? && s.core.closed)
  {
  }

  lemma LockCrashes(s: State, x: Sender, l: LockStep)
    requires s.fault.None? && CanLock(s, x, l)
    ensures DoLock(s, x, l).fault.Some? <==> l.Capture? && !x.Acker? && s.core.stream.None?
  {
  }

  lemma RestNeverCrashes(c: Config, s: State, a: Action)
    requires Can(c, s, a) && !a.Reader? && !a.Locking?
    ensures Do(c, s, a).fault.None?
  {
  }

  /** Which step of a reachable state crashes: a capture of no stream, a Recv after the exit, a push after Close. */
  lemma StepCrashesExactly(c: Config, s: State, a: Action)
    requires Reachable(c, s) && Can(c, s, a)
    ensures Do(c, s, a).fault.Some? <==>
              || (a.Locking? && a.l.Capture? && !a.who.Acker? && s.core.stream.None?)
              || (a.Reader? && a.c.EnterRecv? && s.core.run.Exited?)
              || (a.Reader? && a.c.Push? && s.core.closed)
  {
    hide LifeInv, LockInv, FlowInv, ShapeInv, CountInv, OpeningInv, DoRead, DoLock, DoRun;
    ReachableInv(c, s);
    if a.Reader? {
      ReadCrashes(c, s, a.loop, a.c);
      if a.c.EnterRecv? {
        TopIsLatest(s, a.loop);
      }
    } else if a.Locking? {
      LockCrashes(s, a.who, a.l);
    } else {
      RestNeverCrashes(c, s, a);
    }
  }

  /** A consume loop about to receive is the latest; its stream is gone exactly when the run loop has exited. */
  lemma TopIsLatest(s: State, i: nat)
    requires LifeInv(s) && i < |s.loops| && s.loops[i].consume.AtTop?
    ensures i == |s.loops| - 1
    ensures if s.core.run.Exited? then s.core.stream.None? else s.core.run.Serving? && s.core.stream.Some?
  {
  }

  // ----- sends through a nil stream

  function SendCrash(): State -> bool {
    (t: State) => t.fault.Some? && t.fault.value.SendOnNil?
  }

  lemma NilOwnCrashes(c: Config, s: State, x: Sender)
    requires s.fault.None? && Exists(s, x) && IoOf(s, x).Own? && !x.Acker? && s.core.stream.None?
    ensures CanReach(c, s, SendCrash())
  {
    ReachNow(c, Do(c, s, Locking(x, Capture)), SendCrash());
    ReachStep(c, s, Locking(x, Capture), SendCrash());
  }

  lemma NilPublishCrashes(c: Config, s: State)
    requires CanPublish(c, s) && s.core.stream.None?
    ensures CanReach(c, s, SendCrash())
  {
    var blank := EnvelopeValue(None, "", None, None, "", 0, 0);
    var t := AfterPublish(s, c, blank, "u", Timestamp(0, 0), Timestamp(0, 0));
    PublishRuns(c, s, blank, "u", Timestamp(0, 0), Timestamp(0, 0));
    ReachNow(c, t, SendCrash());
    ReachRun(c, s, SendScript(|s.pubs|, blank, "u", Timestamp(0, 0), Timestamp(0, 0)), t, SendCrash());
  }

  lemma NilWaiterCrashes(c: Config, s: State, i: nat)
    requires s.fault.None? && s.mu.None? && i < |s.pubs| && s.pubs[i].io.Want? && s.core.stream.None?
    ensures CanReach(c, s, SendCrash())
  {
    NilOwnCrashes(c, Do(c, s, Locking(Publisher(i), Acquire)), Publisher(i));
    ReachStep(c, s, Locking(Publisher(i), Acquire), SendCrash());
  }

  lemma NilReleaserCrashes(c: Config, s: State, i: nat)
    requires s.fault.None? && s.core.started && s.mu.None? && Slots(c, s) && c.slots.Some? && s.core.stream.None?
    requires i < |s.pubs| && s.pubs[i].slot && s.pubs[i].io.Over?
    ensures CanReach(c, s, SendCrash())
  {
    TotalElement(s.pubs, i, Holds());
    NilPublishCrashes(c, Do(c, s, Pubs(i, Release)));
    ReachStep(c, s, Pubs(i, Release), SendCrash());
  }

  /** With the lock free: a new call crashes, or, when every slot is taken, one of the calls holding them goes first. */
  lemma NilFreeCrashes(c: Config, s: State)
    requires Inv(c, s) && s.fault.None? && s.core.started && s.mu.None? && s.core.stream.None?
    ensures CanReach(c, s, SendCrash())
  {
    hide Can, Do, CanReach, LifeInv, LockInv, FlowInv, ShapeInv, OpeningInv;
    if CanPublish(c, s) {
      NilPublishCrashes(c, s);
    } else {
      var i := SlotHolder(c, s);
      if s.pubs[i].io.Over? {
        NilReleaserCrashes(c, s, i);
      } else {
        NilWaiterCrashes(c, s, i);
      }
    }
  }

  /** Whoever holds the lock crashes, or leaves it with the stream still missing. */
  lemma NilCrashes(c: Config, s: State)
    requires Inv(c, s) && s.fault.None? && s.core.started && s.core.stream.None?
    ensures CanReach(c, s, SendCrash())
  {
    hide Can, Do, CanReach, Inv;
    if s.mu.None? {
      NilFreeCrashes(c, s);
    } else {
      InvHolder(c, s);
      var x := s.mu.value;
      if IoOf(s, x).Own? && !x.Acker? {
        NilOwnCrashes(c, s, x);
      } else {
        var a := Locking(x, if IoOf(s, x).Own? then Capture else Finish(false, ""));
        HolderLeaves(c, s, x);
        StepInv(c, s, a);
        NilFreeCrashes(c, Do(c, s, a));
        ReachStep(c, s, a, SendCrash());
      }
    }
  }

  lemma InvHolder(c: Config, s: State)
    requires Inv(c, s) && s.mu.Some?
    ensures var x := s.mu.value; Exists(s, x) && Inside(IoOf(s, x)) && (IoOf(s, x).Busy? ==> IoOf(s, x).gen < |s.wire|)
  {
    HolderInside(s);
  }

  lemma HolderLeaves(c: Config, s: State, x: Sender)
    requires s.fault.None? && s.core.stream.None? && Exists(s, x) && Inside(IoOf(s, x))
    requires IoOf(s, x).Busy? ==> IoOf(s, x).gen < |s.wire|
    requires IoOf(s, x).Own? ==> x.Acker?
    ensures var a := Locking(x, if IoOf(s, x).Own? then Capture else Finish(false, ""));
            Can(c, s, a) && Do(c, s, a).core == s.core && Do(c, s, a).fault.None? && Do(c, s, a).mu.None?
  {
  }

  /** How many steps the run loop is away from a cleanup. */
  function Distance(r: RunPc): nat {
    match r
    case Idle => 5
    case Backoff => 5
    case Dialing => 4
    case Registering(_) => 3
    case Launching(_) => 2
    case Serving => 1
    case Exited => 0
  }

  /** The next step of the run loop towards serving. */
  function Ahead(r: RunPc): RunStep
    requires Distance(r) > 1
  {
    match r
    case Idle => Start
    case Backoff => BackoffElapses
    case Dialing => OpenStream
    case Registering(_) => RegisterSent
    case Launching(_) => Launch
  }

  lemma StepAhead(c: Config, s: State)
    requires LifeInv(s) && s.fault.None? && Distance(s.core.run) > 1
    ensures Can(c, s, Run(Ahead(s.core.run)))
    ensures var t := Do(c, s, Run(Ahead(s.core.run))); t.fault.None? && Distance(t.core.run) == Distance(s.core.run) - 1
  {
    hide Alternates, Ordered, Past, Latest, Total, Fields;
    hide Cleanup, Closed;
  }

  /** A serving run loop is cancelled, and leaves no stream. */
  lemma ServingDrops(c: Config, s: State)
    requires s.fault.None? && s.core.run.Serving?
    ensures var s1 := Do(c, s, Run(CancelParent));
            && Can(c, s1, Run(StopOnCancel))
            && var s2 := Do(c, s1, Run(StopOnCancel));
               s2.fault.None? && s2.core.started == s.core.started && s2.core.stream.None?
  {
  }

  lemma ServingCrashes(c: Config, s: State)
    requires Inv(c, s) && s.fault.None? && s.core.started && s.core.run.Serving?
    ensures CanReach(c, s, SendCrash())
  {
    hide CanReach, Inv;
    ServingDrops(c, s);
    hide Can, Do;
    var s1 := Do(c, s, Run(CancelParent));
    StepInv(c, s, Run(CancelParent));
    StepInv(c, s1, Run(StopOnCancel));
    NilCrashes(c, Do(c, s1, Run(StopOnCancel)));
    ReachStep(c, s1, Run(StopOnCancel), SendCrash());
    ReachStep(c, s, Run(CancelParent), SendCrash());
  }

  lemma ServingStarted(s: State)
    requires LifeInv(s) && s.core.run.Serving?
    ensures s.core.started
  {
  }

  lemma {:induction false} RunningCrashes(c: Config, s: State)
    requires Inv(c, s) && s.fault.None? && !s.core.run.Exited?
    ensures CanReach(c, s, SendCrash())
    decreases Distance(s.core.run)
  {
    hide Can, Do, CanReach, Inv, LifeInv;
    InvLife(c, s);
    if s.core.run.Serving? {
      ServingStarted(s);
      ServingCrashes(c, s);
    } else {
      var a := Run(Ahead(s.core.run));
      StepAhead(c, s);
      StepInv(c, s, a);
      RunningCrashes(c, Do(c, s, a));
      ReachStep(c, s, a, SendCrash());
    }
  }

  /** The run loop is gone, and has left a stream in the field or never had one that was started. */
  predicate Settled(s: State) {
    s.core.run.Exited? && (s.core.stream.Some? || (!s.core.started && Alone(s))) && !SendCrash()(s)
  }

  lemma SettledReads(c: Config, s: State, i: nat, r: ReaderStep)
    requires CanRead(c, s, i, r) && Settled(s)
    ensures Settled(DoRead(c, s, i, r))
  {
  }

  lemma SettledLocks(s: State, x: Sender, l: LockStep)
    requires CanLock(s, x, l) && Settled(s)
    ensures Settled(DoLock(s, x, l))
  {
  }

  lemma SettledRun(c: Config, s: State, r: RunStep)
    requires CanRun(s, r) && Settled(s)
    ensures Settled(DoRun(c, s, r))
  {
    assert r.CancelParent? || r.Close?;
  }

  lemma SettledRest(c: Config, s: State, a: Action)
    requires Can(c, s, a) && Settled(s) && !a.Reader? && !a.Locking? && !a.Run?
    ensures Settled(Do(c, s, a))
  {
  }

  lemma SettledStep(c: Config, s: State, a: Action)
    requires Can(c, s, a) && Settled(s)
    ensures Settled(Do(c, s, a))
  {
    hide Settled, DoRead, DoLock, DoRun;
    if a.Run? {
      SettledRun(c, s, a.r);
    } else if a.Reader? {
      SettledReads(c, s, a.loop, a.c);
    } else if a.Locking? {
      SettledLocks(s, a.who, a.l);
    } else {
      SettledRest(c, s, a);
    }
  }

  lemma {:induction false} SettledStays(c: Config, s: State, acts: seq<Action>, t: State)
    requires Settled(s) && Runs(c, s, acts, t)
    ensures Settled(t)
    decreases |acts|
  {
    if acts != [] {
      SettledStep(c, s, acts[0]);
      hide Can, Do, Settled;
      SettledStays(c, Do(c, s, acts[0]), acts[1..], t);
    }
  }

  /**
   From where a publish or heartbeat can still crash on a nil stream, in some interleaving: from everywhere,
   except once the run loop has exited without a cleanup, so that its last stream stays in the field, or
   without ever having connected.
   */
  lemma SendCrashesExactly(c: Config, s: State)
    requires Reachable(c, s) && s.fault.None?
    ensures CanReach(c, s, SendCrash()) <==> !s.core.run.Exited? || (s.core.started && s.core.stream.None?)
  {
    hide Can, Do, CanReach, LifeInv, LockInv, FlowInv, ShapeInv, CountInv, OpeningInv;
    ReachableInv(c, s);
    if !s.core.run.Exited? {
      RunningCrashes(c, s);
    } else if s.core.started && s.core.stream.None? {
      NilCrashes(c, s);
    } else {
      InvAlone(c, s);
      SettledNever(c, s);
    }
  }

  lemma InvAlone(c: Config, s: State)
    requires Inv(c, s)
    ensures !s.core.started ==> Alone(s)
  {
  }

  lemma SettledNever(c: Config, s: State)
    requires Settled(s)
    ensures !CanReach(c, s, SendCrash())
  {
    hide Can, Do;
    forall acts, t | Runs(c, s, acts, t) ensures !SendCrash()(t) {
      SettledStays(c, s, acts, t);
    }
  }

  // ----- receives through a nil stream

  function RecvCrash(i: nat): State -> bool {
    (t: State) => t.fault == Some(RecvOnNil(i))
  }

  /**
   A consume loop between two receives: its next Recv crashes exactly when the run loop has exited, and
   from everywhere a cancellation can make it so.
   */
  lemma RecvCrashesExactly(c: Config, s: State, i: nat)
    requires Reachable(c, s) && s.fault.None? && i < |s.loops| && s.loops[i].consume.AtTop?
    ensures Do(c, s, Reader(i, EnterRecv)).fault == Some(RecvOnNil(i)) <==> s.core.run.Exited?
    ensures CanReach(c, s, RecvCrash(i))
  {
    hide LifeInv, LockInv, FlowInv, ShapeInv, CountInv, OpeningInv, CanReach;
    ReachableInv(c, s);
    TopIsLatest(s, i);
    var enter := Reader(i, EnterRecv);
    if s.core.run.Exited? {
      ReachNow(c, Do(c, s, enter), RecvCrash(i));
      ReachStep(c, s, enter, RecvCrash(i));
    } else {
      CancelledCrashes(c, s, i);
    }
  }

  /** Cancelling, the run loop's exit, and then the next receive. */
  lemma CancelledCrashes(c: Config, s: State, i: nat)
    requires s.fault.None? && i < |s.loops| && s.loops[i].consume.AtTop? && s.core.run.Serving?
    ensures CanReach(c, s, RecvCrash(i))
  {
    hide CanReach;
    ServingDrops(c, s);
    var s1 := Do(c, s, Run(CancelParent));
    var s2 := Do(c, s1, Run(StopOnCancel));
    assert s2.loops == s.loops;
    ReachNow(c, Do(c, s2, Reader(i, EnterRecv)), RecvCrash(i));
    ReachStep(c, s2, Reader(i, EnterRecv), RecvCrash(i));
    hide Can, Do;
    ReachStep(c, s1, Run(StopOnCancel), RecvCrash(i));
    ReachStep(c, s, Run(CancelParent), RecvCrash(i));
  }

  // ----- registration first

  /** Some sender other than the connecting goroutine is inside Send on the stream being registered. */
  ghost predicate Overlapping(s: State) {
    s.core.run.Registering? && exists x: Sender :: IoOf(s, x) == Busy(s.core.run.gen)
  }

  /** The stream existed, and was no later than the first success, whenever that came. */
  predicate NotLate(s: State, g: nat) {
    g < |s.wire| && UpToFirst(s, g)
  }

  lemma {:induction false} NotLateStays(c: Config, s: State, acts: seq<Action>, t: State, g: nat)
    requires Inv(c, s) && Runs(c, s, acts, t) && NotLate(s, g)
    ensures Inv(c, t) && NotLate(t, g)
    decreases |acts|
  {
    if acts != [] {
      NotLateStep(c, s, acts[0], g);
      hide Inv, Can, Do;
      StepInv(c, s, acts[0]);
      NotLateStays(c, Do(c, s, acts[0]), acts[1..], t, g);
    }
  }

  lemma NotLateStep(c: Config, s: State, a: Action, g: nat)
    requires LifeInv(s) && Can(c, s, a) && NotLate(s, g)
    ensures NotLate(Do(c, s, a), g)
  {
    hide LifeInv;
    if a.Run? {
      NotLateRun(c, s, a.r, g);
    } else if a.Locking? {
      NotLateLock(s, a.who, a.l, g);
    } else {
      OthersLeaveStreams(c, s, a);
    }
  }

  lemma NotLateRun(c: Config, s: State, r: RunStep, g: nat)
    requires LifeInv(s) && CanRun(s, r) && NotLate(s, g)
    ensures NotLate(DoRun(c, s, r), g)
  {
    if s.core.run.Launching? {
      assert Connecting(s.core, s.loops, |s.wire|, s.core.run.gen);
    }
    hide LifeInv;
  }

  lemma NotLateLock(s: State, x: Sender, l: LockStep, g: nat)
    requires CanLock(s, x, l) && NotLate(s, g)
    ensures NotLate(DoLock(s, x, l), g)
  {
  }

  /**
   Up to and including the first stream on which connect succeeds: Register first, and no overlapping
   Sends. On every stream at most one sender at a time is inside a Send under the lock.
   */
  lemma RegisterFirst(c: Config, s: State)
    requires Reachable(c, s)
    ensures forall g :: 0 <= g < |s.wire| && UpToFirst(s, g) ==> Leads(s.wire[g])
    ensures forall x: Sender, y: Sender :: IoOf(s, x).Busy? && IoOf(s, y).Busy? ==> x == y
    ensures s.loops == [] ==> !Overlapping(s)
  {
    hide LifeInv, FlowInv, ShapeInv, CountInv;
    hide Can, Do;
    ReachableInv(c, s);
    forall x: Sender, y: Sender | IoOf(s, x).Busy? && IoOf(s, y).Busy? ensures x == y {
      assert Inside(IoOf(s, x)) && Inside(IoOf(s, y));
    }
    if s.loops == [] {
      forall x: Sender ensures !IoOf(s, x).Busy? {
        assert Inside(IoOf(s, x)) <==> s.mu == Some(x);
      }
    }
  }

  /** Another frame is before the registration of stream `g`. */
  function Overtaken(g: nat): State -> bool {
    (t: State) => g < |t.wire| && !Leads(t.wire[g])
  }

  /** A stream is about to be registered, and an earlier connect has succeeded. */
  predicate LateOpening(s: State, g: nat) {
    s.fault.None? && s.core.started && s.core.stream == Some(g) && g < |s.wire| && s.wire[g].sent == []
  }

  /** A sender inside Send on the stream gets its frame there first. */
  lemma BusyBreaks(c: Config, s: State, g: nat, x: Sender)
    requires LateOpening(s, g) && Exists(s, x) && IoOf(s, x) == Busy(g)
    ensures CanReach(c, s, Overtaken(g))
  {
    var a := Locking(x, Finish(true, ""));
    var t := Do(c, s, a);
    assert t.wire[g].sent == [Packet(x, RequestOf(s, x, ""))];
    assert !t.wire[g].sent[0].req.Register?;
    assert !Leads(t.wire[g]);
    ReachNow(c, t, Overtaken(g));
    ReachStep(c, s, a, Overtaken(g));
  }

  lemma OwnBreaks(c: Config, s: State, g: nat, x: Sender)
    requires LateOpening(s, g) && Exists(s, x) && IoOf(s, x) == Own
    ensures CanReach(c, s, Overtaken(g))
  {
    BusyBreaks(c, Do(c, s, Locking(x, Capture)), g, x);
    ReachStep(c, s, Locking(x, Capture), Overtaken(g));
  }

  lemma WantBreaks(c: Config, s: State, g: nat, x: Sender)
    requires LateOpening(s, g) && Exists(s, x) && IoOf(s, x) == Want && s.mu.None?
    ensures CanReach(c, s, Overtaken(g))
  {
    OwnBreaks(c, Do(c, s, Locking(x, Acquire)), g, x);
    ReachStep(c, s, Locking(x, Acquire), Overtaken(g));
  }

  lemma RoomBreaks(c: Config, s: State, g: nat)
    requires LateOpening(s, g) && CanPublish(c, s)
    ensures CanReach(c, s, Overtaken(g))
  {
    var blank := EnvelopeValue(None, "", None, None, "", 0, 0);
    var s1 := Do(c, s, PubCall(blank));
    var a := Pubs(|s.pubs|, Admit("u", Timestamp(0, 0), Timestamp(0, 0)));
    WantBreaks(c, Do(c, s1, a), g, Publisher(|s.pubs|));
    ReachStep(c, s1, a, Overtaken(g));
    ReachStep(c, s, PubCall(blank), Overtaken(g));
  }

  /** With the lock free and every slot taken, some call holding one can move: it waits for the lock or is over. */
  lemma SlotHolder(c: Config, s: State) returns (i: nat)
    requires LockInv(s) && ShapeInv(s) && Slots(c, s) && s.mu.None?
    requires c.slots.Some? && s.inflight >= c.slots.value
    ensures i < |s.pubs| && s.pubs[i].slot && (s.pubs[i].io.Want? || s.pubs[i].io.Over?)
  {
    i := TotalPositive(s.pubs, Holds());
    assert PubOk(s.pubs[i]);
    assert !Inside(IoOf(s, Publisher(i)));
  }

  /** A call that is over gives its slot back, which makes room for a new one. */
  lemma ReleaseBreaks(c: Config, s: State, g: nat, i: nat)
    requires LateOpening(s, g) && s.mu.None? && Slots(c, s) && c.slots.Some?
    requires i < |s.pubs| && s.pubs[i].slot && s.pubs[i].io.Over?
    ensures CanReach(c, s, Overtaken(g))
  {
    TotalElement(s.pubs, i, Holds());
    var a := Pubs(i, Release);
    assert CanPublish(c, Do(c, s, a));
    RoomBreaks(c, Do(c, s, a), g);
    ReachStep(c, s, a, Overtaken(g));
  }

  /** With the lock free: a new call gets in, or, when every slot is taken, one of the calls holding them. */
  lemma FreeBreaks(c: Config, s: State, g: nat)
    requires LockInv(s) && ShapeInv(s) && CountInv(c, s) && LateOpening(s, g) && s.mu.None?
    ensures CanReach(c, s, Overtaken(g))
  {
    if CanPublish(c, s) {
      RoomBreaks(c, s, g);
    } else {
      var i := SlotHolder(c, s);
      hide LockInv, ShapeInv, Can, Do, CanReach;
      if s.pubs[i].io.Over? {
        ReleaseBreaks(c, s, g, i);
      } else {
        WantBreaks(c, s, g, Publisher(i));
      }
    }
  }

  lemma HolderInside(s: State)
    requires LockInv(s) && s.mu.Some?
    ensures var x := s.mu.value; Exists(s, x) && Inside(IoOf(s, x)) && (IoOf(s, x).Busy? ==> IoOf(s, x).gen < |s.wire|)
  {
    assert Inside(IoOf(s, s.mu.value));
  }

  /** The holder of the lock gives up its Send to an older stream. */
  lemma GivesUp(c: Config, s: State, g: nat, x: Sender)
    requires LateOpening(s, g) && Exists(s, x) && IoOf(s, x).Busy? && IoOf(s, x).gen < |s.wire|
    ensures var a := Locking(x, Finish(false, "")); Can(c, s, a) && LateOpening(Do(c, s, a), g) && Do(c, s, a).mu.None?
  {
  }

  lemma LateOpeningBreaks(c: Config, s: State, g: nat)
    requires Inv(c, s) && LateOpening(s, g)
    ensures CanReach(c, s, Overtaken(g))
  {
    if s.mu.None? {
      hide LockInv, ShapeInv, CountInv, Can, Do;
      FreeBreaks(c, s, g);
    } else {
      HolderInside(s);
      hide LockInv, ShapeInv, CountInv, LifeInv, FlowInv, OpeningInv, Can, Do;
      var x := s.mu.value;
      if IoOf(s, x).Own? {
        OwnBreaks(c, s, g, x);
      } else if IoOf(s, x).gen == g {
        BusyBreaks(c, s, g, x);
      } else {
        var a := Locking(x, Finish(false, ""));
        GivesUp(c, s, g, x);
        StepInv(c, s, a);
        FreeBreaks(c, Do(c, s, a), g);
        ReachStep(c, s, a, Overtaken(g));
      }
    }
  }

  /**
   Exactly when a stream about to be registered is sure to open with its registration: when no connect
   has succeeded before. After one success a publisher, heartbeat or ack can always get ahead of it.
   */
  lemma RegisterFirstExactly(c: Config, s: State, g: nat)
    requires Reachable(c, s) && s.fault.None?
    requires s.core.run == Registering(g) && g < |s.wire| && s.wire[g].sent == []
    ensures CanReach(c, s, Overtaken(g)) <==> s.core.started
  {
    hide Can, Do, Inv, LifeInv;
    ReachableInv(c, s);
    InvLife(c, s);
    RegisteringConnects(s);
    if s.core.started {
      LateOpeningBreaks(c, s, g);
    } else {
      EarlyOpeningLeads(c, s, g);
    }
  }

  lemma InvLife(c: Config, s: State)
    requires Inv(c, s)
    ensures LifeInv(s)
  {
  }

  lemma EarlyOpeningLeads(c: Config, s: State, g: nat)
    requires Inv(c, s) && NotLate(s, g)
    ensures !CanReach(c, s, Overtaken(g))
  {
    hide Can, Do, Inv;
    forall acts, t | Runs(c, s, acts, t) ensures g < |t.wire| && Leads(t.wire[g]) {
      NotLateStays(c, s, acts, t, g);
      NotLateLeads(c, t, g);
    }
  }

  lemma RegisteringConnects(s: State)
    requires LifeInv(s) && s.core.run.Registering?
    ensures s.core.stream == Some(s.core.run.gen)
    ensures s.core.run.gen < |s.wire| && !s.core.started ==> NotLate(s, s.core.run.gen)
  {
  }

  lemma NotLateLeads(c: Config, t: State, g: nat)
    requires Inv(c, t) && NotLate(t, g)
    ensures Leads(t.wire[g])
  {
  }

  // ----- Drain

  /** The wait group counts the run loop and the live heartbeat loops, of every generation. */
  lemma WaitGroup(c: Config, s: State)
    requires Reachable(c, s)
    ensures s.core.wg == RunCount(s.core) + Total(s.loops, BeatCount()) >= 0
    ensures s.core.wg == 0 && !s.core.run.Idle? <==> Stopped(s)
  {
    hide Can, Do;
    ReachableInv(c, s);
    hide LockInv, FlowInv, ShapeInv, CountInv, OpeningInv;
    if s.core.wg == 0 {
      forall i | 0 <= i < |s.loops| ensures !s.loops[i].alive {
        TotalElement(s.loops, i, BeatCount());
      }
    } else if Stopped(s) {
      NoBeats(s.loops);
    }
  }

  predicate Stopped(s: State) {
    s.core.run.Exited? && forall i :: 0 <= i < |s.loops| ==> !s.loops[i].alive
  }

  lemma {:induction false} NoBeats(loops: seq<Loop>)
    requires forall i :: 0 <= i < |loops| ==> !loops[i].alive
    ensures Total(loops, BeatCount()) == 0
  {
    if loops != [] {
      NoBeats(loops[..|loops| - 1]);
    }
  }

  lemma StoppedReads(c: Config, s: State, i: nat, r: ReaderStep)
    requires CanRead(c, s, i, r) && Stopped(s)
    ensures Stopped(DoRead(c, s, i, r))
  {
  }

  lemma StoppedLocks(s: State, x: Sender, l: LockStep)
    requires CanLock(s, x, l) && Stopped(s)
    ensures Stopped(DoLock(s, x, l))
  {
  }

  lemma StoppedRun(c: Config, s: State, r: RunStep)
    requires CanRun(s, r) && Stopped(s)
    ensures Stopped(DoRun(c, s, r))
  {
    assert r.CancelParent? || r.Close?;
  }

  lemma StoppedRest(c: Config, s: State, a: Action)
    requires Can(c, s, a) && Stopped(s) && !a.Reader? && !a.Locking? && !a.Run?
    ensures Stopped(Do(c, s, a))
  {
  }

  lemma StoppedStep(c: Config, s: State, a: Action)
    requires Can(c, s, a) && Stopped(s)
    ensures Stopped(Do(c, s, a))
  {
    hide Stopped, DoRead, DoLock, DoRun;
    if a.Run? {
      StoppedRun(c, s, a.r);
    } else if a.Reader? {
      StoppedReads(c, s, a.loop, a.c);
    } else if a.Locking? {
      StoppedLocks(s, a.who, a.l);
    } else {
      StoppedRest(c, s, a);
    }
  }

  /**
   Once Drain's wait group is empty after a start, the run loop and every heartbeat loop are gone, and
   they stay gone in every continuation: no reconnect brings one back.
   */
  lemma {:induction false} DrainIsFinal(c: Config, s: State, acts: seq<Action>, t: State)
    requires Stopped(s) && Runs(c, s, acts, t)
    ensures Stopped(t)
    decreases |acts|
  {
    if acts != [] {
      StoppedStep(c, s, acts[0]);
      hide Can, Do, Stopped;
      DrainIsFinal(c, Do(c, s, acts[0]), acts[1..], t);
    }
  }

  /** A run of one more step. */
  lemma Extend(c: Config, s: State, a: Action)
    requires Reachable(c, s) && Can(c, s, a)
    ensures Reachable(c, Do(c, s, a))
  {
    var acts :| Runs(c, INIT, acts, s);
    RunPush(c, INIT, acts, s, a);
  }

  /** The first connect, up to its two loops. */
  lemma FirstConnect(c: Config) returns (s: State)
    ensures Reachable(c, s) && s.fault.None? && s.mu.None? && !s.core.closed && !s.core.runDone
    ensures s.core.run.Serving? && s.core.started && s.core.recvErr == Some([]) && s.core.stream == Some(0)
    ensures |s.wire| == 1 && s.pubs == [] && s.inflight == 0
    ensures s.loops == [Loop(0, 0, Rest, true, AtTop)] && s.core.wg == 2
  {
    s := INIT;
    assert Runs(c, INIT, [], INIT);
    Extend(c, s, Run(Start));
    s := Do(c, s, Run(Start));
    Extend(c, s, Run(OpenStream));
    s := Do(c, s, Run(OpenStream));
    Extend(c, s, Run(RegisterSent));
    s := Do(c, s, Run(RegisterSent));
    Extend(c, s, Run(Launch));
    s := Do(c, s, Run(Launch));
  }

  /** The consume loop of the first connect is waiting in Recv when the client is closed. */
  lemma ClosedReceiving(c: Config) returns (s: State)
    ensures Reachable(c, s) && s.fault.None? && s.core.closed && s.core.runDone && s.core.run.Serving? && s.core.wg == 2
    ensures s.loops == [Loop(0, 0, Rest, true, InRecv(0))]
  {
    s := FirstConnect(c);
    Extend(c, s, Reader(0, EnterRecv));
    s := Do(c, s, Reader(0, EnterRecv));
    Extend(c, s, Run(Close));
    s := Do(c, s, Run(Close));
  }

  /** Drain can return nil while a consume loop is still running: it is not in the wait group. */
  lemma DrainLeavesConsume(c: Config)
    ensures exists s :: Reachable(c, s) && s.core.closed && Stopped(s) && s.core.wg == 0
                        && |s.loops| == 1 && s.loops[0].consume == InRecv(0)
  {
    var s := ClosedReceiving(c);
    hide Reachable;
    Extend(c, s, Run(StopOnCancel));
    s := Do(c, s, Run(StopOnCancel));
    Extend(c, s, Heart(0, Stop));
    s := Do(c, s, Heart(0, Stop));
  }

  predicate LiveConsume(s: State) {
    exists i {:trigger s.loops[i]} :: 0 <= i < |s.loops| && !s.loops[i].consume.Finished?
  }

  /**
   Which exits of the run loop leave a consume loop running: exactly the ones on a done context, from
   serving, when the latest loop has not ended by itself.
   */
  lemma ExitLeavesConsumeExactly(c: Config, s: State, r: RunStep)
    requires Reachable(c, s) && Can(c, s, Run(r)) && !s.core.run.Exited? && Do(c, s, Run(r)).core.run.Exited?
    ensures LiveConsume(Do(c, s, Run(r))) <==>
              r.StopOnCancel? && s.loops != [] && !s.loops[|s.loops| - 1].consume.Finished?
  {
    hide LifeInv, LockInv, FlowInv, ShapeInv, CountInv, OpeningInv, DoRun, CanRun, LiveConsume;
    ReachableInv(c, s);
    ExitSteps(c, s, r);
    ExitLoops(s);
    SameLoopsLive(s, Do(c, s, Run(r)));
  }

  lemma ExitSteps(c: Config, s: State, r: RunStep)
    requires CanRun(s, r) && !s.core.run.Exited? && DoRun(c, s, r).core.run.Exited?
    ensures DoRun(c, s, r).loops == s.loops
    ensures
      || (r.BackoffCancelled? && s.core.run.Backoff?)
      || (r.StopOnCancel? && s.core.run.Serving?)
      || (r.StopOnError? && s.core.run.Serving? && s.core.recvErr.Some? && s.core.recvErr.value != [])
  {
  }

  lemma SameLoopsLive(s: State, t: State)
    requires t.loops == s.loops
    ensures LiveConsume(t) <==> LiveConsume(s)
  {
  }

  /** While the run loop waits, no consume loop is left; while it serves, only the latest may be. */
  lemma ExitLoops(s: State)
    requires LifeInv(s)
    ensures s.core.run.Backoff? ==> !LiveConsume(s)
    ensures s.core.run.Serving? ==> s.loops != [] && (LiveConsume(s) <==> !s.loops[|s.loops| - 1].consume.Finished?)
    ensures s.core.run.Serving? && s.core.recvErr.Some? && s.core.recvErr.value != [] ==> !LiveConsume(s)
  {
    hide Alternates, Ordered, Connecting, Total;
    assert forall i {:trigger s.loops[i]} :: 0 <= i < |s.loops| - 1 ==> s.loops[i].consume.Finished?;
  }

  /** Cancelling the run context can make the consume loop receive through a nil stream. */
  lemma CancelCanCrashConsume(c: Config)
    ensures exists s :: Reachable(c, s) && s.fault == Some(RecvOnNil(0)) && !s.core.closed
  {
    var s := FirstConnect(c);
    Extend(c, s, Run(CancelParent));
    s := Do(c, s, Run(CancelParent));
    Extend(c, s, Run(StopOnCancel));
    s := Do(c, s, Run(StopOnCancel));
    Extend(c, s, Reader(0, EnterRecv));
    s := Do(c, s, Reader(0, EnterRecv));
  }

  /** A lost stream: the error is reported, the loop cleans up and is about to dial again. */
  lemma FirstReconnect(c: Config) returns (s: State)
    ensures Reachable(c, s) && CanPublish(c, s) && s.pubs == []
    ensures s.core.run.Dialing? && s.core.stream.None? && !s.core.runDone && !s.core.closed
  {
    s := FirstConnect(c);
    Extend(c, s, Reader(0, EnterRecv));
    s := Do(c, s, Reader(0, EnterRecv));
    Extend(c, s, Reader(0, RecvFails));
    s := Do(c, s, Reader(0, RecvFails));
    Extend(c, s, Reader(0, Report));
    s := Do(c, s, Reader(0, Report));
    Extend(c, s, Run(StopOnError));
    s := Do(c, s, Run(StopOnError));
  }

  /** A publish during a reconnect crashes, without any cancellation or Close. */
  lemma ReconnectCanCrashPublish(c: Config, e: EnvelopeValue)
    ensures exists s :: Reachable(c, s) && s.fault == Some(SendOnNil(Publisher(0))) && !s.core.runDone && !s.core.closed
  {
    var s := FirstReconnect(c);
    PublishRuns(c, s, e, "u", Timestamp(0, 0), Timestamp(0, 0));
    var acts :| Runs(c, INIT, acts, s);
    hide Can, Do;
    RunsJoin(c, INIT, acts, s, SendScript(|s.pubs|, e, "u", Timestamp(0, 0), Timestamp(0, 0)),
             AfterPublish(s, c, e, "u", Timestamp(0, 0), Timestamp(0, 0)));
  }
}
