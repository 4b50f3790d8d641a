/** How streams open: up to the first successful connect, the registration is the only possible first frame. */
module ProtocolOpening {
  import opened Common
  import opened Frames
  import opened Protocol
  import opened ProtocolLife
  import opened ProtocolLock
  import opened ProtocolShape

  /** The registration is the first frame and no other frame is one. */
  predicate Leads(p: Pipe) {
    forall j :: 0 <= j < |p.sent| ==> (p.sent[j].req.Register? <==> j == 0)
  }

  /** Before the first success nothing but the connecting goroutine exists. */
  predicate Alone(s: State) {
    s.pubs == [] && s.loops == [] && s.direct.items == [] && s.fanned.items == []
  }

  /** Stream `g` was opened no later than the first one on which connect succeeded. */
  predicate UpToFirst(s: State, g: nat) {
    s.loops == [] || g <= s.loops[0].gen
  }

  predicate FirstStreams(s: State) {
    forall g {:trigger s.wire[g]} :: 0 <= g < |s.wire| && UpToFirst(s, g) ==>
      && Leads(s.wire[g])
      && (s.loops == [] || g < s.loops[0].gen ==> |s.wire[g].sent| <= 1)
      && (s.loops != [] && g == s.loops[0].gen ==> |s.wire[g].sent| >= 1)
  }

  predicate OpeningInv(s: State) {
    && (!s.core.started ==> Alone(s))
    && FirstStreams(s)
    && (s.loops == [] && s.core.run.Registering? && s.core.run.gen < |s.wire| ==> s.wire[s.core.run.gen].sent == [])
    && (s.loops == [] && s.core.run.Launching? && s.core.run.gen < |s.wire| ==> |s.wire[s.core.run.gen].sent| == 1)
    && LateSend(s)
  }

  /** A Send under the lock is on a stream that is not before the first success. */
  predicate LateSend(s: State) {
    s.mu.Some? && IoOf(s, s.mu.value).Busy? ==> s.loops != [] && s.loops[0].gen <= IoOf(s, s.mu.value).gen
  }

  /** What the reconnect loop's invariant says of streams and the first success. */
  predicate Placed(s: State) {
    && (s.core.started <==> s.loops != [])
    && (s.loops != [] ==> s.loops[0].gen < |s.wire|)
    && (s.core.run.Registering? || s.core.run.Launching? ==>
          s.core.run.gen + 1 == |s.wire| && (s.loops != [] ==> s.loops[0].gen < s.core.run.gen))
  }

  lemma LifePlaces(s: State)
    requires LifeInv(s)
    ensures Placed(s)
  {
  }

  /** Steps that leave senders and streams alone. */
  lemma QuietKeepsOpening(s: State, t: State)
    requires OpeningInv(s) && t == s.(core := t.core) && t.core.started == s.core.started
    requires t.core.run == s.core.run || !(t.core.run.Registering? || t.core.run.Launching?)
    ensures OpeningInv(t)
  {
    WireKeepsFirst(s, t);
  }

  lemma OpenKeepsOpening(c: Config, s: State)
    requires Placed(s) && OpeningInv(s) && CanRun(s, OpenStream)
    requires LateSend(DoRun(c, s, OpenStream))
    ensures OpeningInv(DoRun(c, s, OpenStream))
  {
    hide LateSend;
    var t := DoRun(c, s, OpenStream);
    forall g | 0 <= g < |t.wire| && UpToFirst(t, g) ensures Leads(t.wire[g]) {
      assert g < |s.wire| ==> UpToFirst(s, g);
    }
  }

  lemma RegisterKeepsOpening(c: Config, s: State)
    requires Placed(s) && OpeningInv(s) && CanRun(s, RegisterSent)
    requires LateSend(DoRun(c, s, RegisterSent))
    ensures OpeningInv(DoRun(c, s, RegisterSent))
  {
    hide LateSend;
    var t := DoRun(c, s, RegisterSent);
    var g := s.core.run.gen;
    forall h | 0 <= h < |t.wire| && UpToFirst(t, h) ensures Leads(t.wire[h]) {
      assert UpToFirst(s, h);
    }
  }

  lemma LaunchKeepsOpening(c: Config, s: State)
    requires Placed(s) && OpeningInv(s) && CanRun(s, Launch)
    requires LateSend(DoRun(c, s, Launch))
    ensures OpeningInv(DoRun(c, s, Launch))
  {
    hide LateSend;
    var t := DoRun(c, s, Launch);
    forall g | 0 <= g < |t.wire| && UpToFirst(t, g) ensures Leads(t.wire[g]) {
      assert UpToFirst(s, g);
    }
  }

  /** The run loop leaves the lock and the sender inside it alone. */
  lemma RunKeepsLate(c: Config, s: State, r: RunStep)
    requires LockInv(s) && LateSend(s) && s.fault.None? && CanRun(s, r)
    ensures LateSend(DoRun(c, s, r))
  {
    OutsideSteps(c, s, Run(r));
    var t := DoRun(c, s, r);
    assert t.mu == s.mu && |s.loops| <= |t.loops| && (s.loops != [] ==> t.loops[0] == s.loops[0]);
    if s.mu.Some? {
      assert Inside(IoOf(s, s.mu.value));
      assert IoOf(t, s.mu.value) == IoOf(s, s.mu.value);
    }
  }

  lemma RunKeepsOpening(c: Config, s: State, r: RunStep)
    requires LifeInv(s) && LockInv(s) && OpeningInv(s) && s.fault.None? && CanRun(s, r)
    ensures OpeningInv(DoRun(c, s, r))
  {
    hide LifeInv, LockInv;
    LifePlaces(s);
    RunKeepsLate(c, s, r);
    hide OpeningInv, Placed, LateSend;
    match r
    case OpenStream => OpenKeepsOpening(c, s);
    case RegisterSent => RegisterKeepsOpening(c, s);
    case Launch => LaunchKeepsOpening(c, s);
    case _ => QuietKeepsOpening(s, DoRun(c, s, r));
  }

  lemma WireKeepsFirst(s: State, t: State)
    requires FirstStreams(s) && t.wire == s.wire
    requires |t.loops| == |s.loops| && (s.loops != [] ==> t.loops[0].gen == s.loops[0].gen)
    ensures FirstStreams(t)
  {
    forall g | 0 <= g < |t.wire| && UpToFirst(t, g)
      ensures Leads(t.wire[g])
    {
      assert UpToFirst(s, g);
    }
  }

  lemma SendKeepsFirst(s: State, t: State, g: nat, q: Packet)
    requires FirstStreams(s) && g < |s.wire| && t.wire == Transmit(s.wire, g, q) && !q.req.Register?
    requires |t.loops| == |s.loops| && s.loops != [] && t.loops[0].gen == s.loops[0].gen
    requires s.loops[0].gen <= g
    ensures FirstStreams(t)
  {
    forall h | 0 <= h < |t.wire| && UpToFirst(t, h)
      ensures Leads(t.wire[h])
    {
      assert UpToFirst(s, h) && Leads(s.wire[h]);
    }
  }

  /** Only the sender inside the lock, its progress and its stream's frames change. */
  predicate LockMoved(s: State, t: State) {
    && t.core == s.core && |t.wire| == |s.wire| && |t.loops| == |s.loops|
    && (s.loops != [] ==> t.loops[0].gen == s.loops[0].gen)
  }

  lemma LockMoves(s: State, x: Sender, l: LockStep)
    requires CanLock(s, x, l)
    ensures LockMoved(s, DoLock(s, x, l))
    ensures l.Acquire? || l.Capture? || !l.ok ==> DoLock(s, x, l).wire == s.wire
    ensures l.Acquire? ==> DoLock(s, x, l).mu == Some(x)
    ensures l.Capture? ==> DoLock(s, x, l).mu == s.mu || DoLock(s, x, l).mu.None?
    ensures l.Finish? ==> DoLock(s, x, l).mu.None?
    ensures l.Finish? && l.ok ==>
              DoLock(s, x, l).wire == Transmit(s.wire, IoOf(s, x).gen, Packet(x, RequestOf(s, x, l.nonce)))
  {
  }

  lemma FinishKeepsOpening(s: State, x: Sender, l: LockStep)
    requires Placed(s) && LockInv(s) && OpeningInv(s) && s.core.started && CanLock(s, x, l) && l.Finish?
    ensures OpeningInv(DoLock(s, x, l))
  {
    var t := DoLock(s, x, l);
    LockMoves(s, x, l);
    assert Inside(IoOf(s, x)) <==> s.mu == Some(x);
    assert s.loops[0].gen <= IoOf(s, x).gen;
    assert !RequestOf(s, x, l.nonce).Register?;
    hide DoLock, CanLock, IoOf, RequestOf, LockInv, Leads;
    if l.ok {
      SendKeepsFirst(s, t, IoOf(s, x).gen, Packet(x, RequestOf(s, x, l.nonce)));
    } else {
      WireKeepsFirst(s, t);
    }
  }

  lemma CaptureKeepsOpening(s: State, x: Sender)
    requires Placed(s) && LockInv(s) && OpeningInv(s) && s.core.started && s.fault.None? && CanLock(s, x, Capture)
    requires s.core.stream.Some? ==> s.core.stream.value + 1 == |s.wire|
    ensures OpeningInv(DoLock(s, x, Capture))
  {
    var t := DoLock(s, x, Capture);
    LockMoves(s, x, Capture);
    CaptureIo(s, x);
    CaptureFaults(s, x);
    assert Inside(IoOf(s, x)) <==> s.mu == Some(x);
    hide DoLock, CanLock, IoOf, Leads;
    WireKeepsFirst(s, t);
  }

  lemma CaptureFaults(s: State, x: Sender)
    requires CanLock(s, x, Capture) && s.fault.None?
    ensures var t := DoLock(s, x, Capture); t.fault.Some? ==> t == s.(fault := t.fault)
    ensures IoOf(s, x).Own?
  {
  }

  lemma AcquireKeepsOpening(s: State, x: Sender)
    requires OpeningInv(s) && s.core.started && CanLock(s, x, Acquire)
    ensures OpeningInv(DoLock(s, x, Acquire))
  {
    var t := DoLock(s, x, Acquire);
    LockMoves(s, x, Acquire);
    AcquireIo(s, x);
    hide DoLock, CanLock, IoOf, Leads;
    WireKeepsFirst(s, t);
  }

  lemma LockKeepsOpening(s: State, x: Sender, l: LockStep)
    requires LifeInv(s) && LockInv(s) && OpeningInv(s) && s.fault.None? && CanLock(s, x, l)
    ensures OpeningInv(DoLock(s, x, l))
  {
    assert s.core.stream.Some? ==> s.core.stream.value + 1 == |s.wire|;
    LifePlaces(s);
    hide LifeInv, LockInv, Placed;
    SenderStarted(s, x);
    hide OpeningInv, IoOf;
    match l
    case Acquire => AcquireKeepsOpening(s, x);
    case Capture => CaptureKeepsOpening(s, x);
    case Finish(_, _) => FinishKeepsOpening(s, x, l);
  }

  lemma SenderStarted(s: State, x: Sender)
    requires OpeningInv(s) && !IoOf(s, x).Rest?
    ensures s.core.started
  {
  }

  /** What the other steps leave alone. */
  predicate SameStreams(s: State, t: State) {
    && t.core.run == s.core.run && t.core.started == s.core.started && t.mu == s.mu
    && |t.loops| == |s.loops| && (s.loops != [] ==> t.loops[0].gen == s.loops[0].gen)
    && |t.wire| == |s.wire|
    && (forall g {:trigger t.wire[g]} :: 0 <= g < |s.wire| ==> t.wire[g].sent == s.wire[g].sent)
    && (!s.core.started && Alone(s) ==> Alone(t))
  }

  lemma OthersLeaveStreams(c: Config, s: State, a: Action)
    requires Can(c, s, a) && !a.Run? && !a.Locking?
    ensures SameStreams(s, Do(c, s, a))
  {
    if a.Reader? {
      ReaderLeavesStreams(c, s, a.loop, a.c);
    } else if a.Server? {
      ServerLeavesStreams(s, a.gen, a.v);
    } else {
      CallsLeaveStreams(c, s, a);
    }
  }

  lemma ServerLeavesStreams(s: State, g: nat, v: ServerStep)
    requires CanServe(s, g, v)
    ensures SameStreams(s, s.(wire := s.wire[g := Served(s.wire[g], v)]))
  {
    hide FrameOf;
  }

  lemma CallsLeaveStreams(c: Config, s: State, a: Action)
    requires Can(c, s, a) && (a.Heart? || a.Take? || a.AckCall? || a.PubCall? || a.Pubs?)
    ensures SameStreams(s, Do(c, s, a))
  {
    assert Do(c, s, a).wire == s.wire;
  }

  lemma RecvLeavesStreams(c: Config, s: State, i: nat)
    requires CanRead(c, s, i, Recv)
    ensures SameStreams(s, DoRead(c, s, i, Recv))
  {
    hide Arrivals;
  }

  lemma ReaderLeavesStreams(c: Config, s: State, i: nat, r: ReaderStep)
    requires CanRead(c, s, i, r)
    ensures SameStreams(s, DoRead(c, s, i, r))
  {
    if r.Recv? {
      RecvLeavesStreams(c, s, i);
    } else {
      OtherReadsLeaveStreams(c, s, i, r);
    }
  }

  lemma OtherReadsLeaveStreams(c: Config, s: State, i: nat, r: ReaderStep)
    requires CanRead(c, s, i, r) && !r.Recv?
    ensures SameStreams(s, DoRead(c, s, i, r))
  {
    assert DoRead(c, s, i, r).wire == s.wire;
  }

  lemma SameStreamsKeepOpening(s: State, t: State)
    requires LockInv(s) && OpeningInv(s) && SameStreams(s, t) && InsideSame(s, t)
    ensures OpeningInv(t)
  {
    hide IoOf, Inside;
    forall g | 0 <= g < |t.wire| && UpToFirst(t, g)
      ensures Leads(t.wire[g]) && |t.wire[g].sent| == |s.wire[g].sent|
    {
      assert UpToFirst(s, g) && Leads(s.wire[g]);
      assert t.wire[g].sent == s.wire[g].sent;
    }
    if s.mu.Some? {
      assert Inside(IoOf(s, s.mu.value)) <==> s.mu == Some(s.mu.value);
      assert IoOf(t, s.mu.value) == IoOf(s, s.mu.value);
    }
  }

  lemma OpeningKept(c: Config, s: State, a: Action)
    requires LifeInv(s) && LockInv(s) && OpeningInv(s) && Can(c, s, a)
    ensures OpeningInv(Do(c, s, a))
  {
    hide LifeInv, LockInv, OpeningInv;
    match a
    case Run(r) => RunKeepsOpening(c, s, r);
    case Locking(x, l) => LockKeepsOpening(s, x, l);
    case _ =>
      OthersLeaveStreams(c, s, a);
      OutsideSteps(c, s, a);
      SameStreamsKeepOpening(s, Do(c, s, a));
  }
}
