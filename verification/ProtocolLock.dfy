/** The send lock: who holds it, and that nobody else is inside a Send under it. */
module ProtocolLock {
  import opened Common
  import opened Envelopes
  import opened Frames
  import opened Protocol

  predicate Inside(io: Io) {
    io.Own? || io.Busy?
  }

  /** The lock's owner is exactly the one sender between acquiring and releasing it. */
  ghost predicate LockInv(s: State) {
    && (forall x: Sender {:trigger IoOf(s, x)} :: Inside(IoOf(s, x)) <==> s.mu == Some(x))
    && (forall x: Sender {:trigger IoOf(s, x)} :: IoOf(s, x).Busy? ==> IoOf(s, x).gen < |s.wire|)
  }

  /** `t` differs from `s` at most in the progress of `x`. */
  ghost predicate OnlyIo(s: State, t: State, x: Sender) {
    forall y: Sender {:trigger IoOf(t, y)} :: y != x ==> IoOf(t, y) == IoOf(s, y)
  }

  lemma HeartIo(s: State, i: nat, h: HeartStep)
    requires CanHeart(s, i, h)
    ensures OnlyIo(s, DoHeart(s, i, h), Beater(i))
    ensures var io := IoOf(DoHeart(s, i, h), Beater(i)); io.Rest? || io.Want?
    ensures IoOf(s, Beater(i)).Rest?
  {
  }

  /** Appending to the items, or changing anything but senders, moves no one. */
  lemma SamePlaces(s: State, t: State)
    requires t.pubs == s.pubs && |t.loops| == |s.loops|
    requires forall i {:trigger t.loops[i]} :: 0 <= i < |s.loops| ==> t.loops[i].beat == s.loops[i].beat
    requires t.direct.items == s.direct.items && t.fanned.items == s.fanned.items
    ensures OnlyIo(s, t, Connector)
    ensures forall y: Sender {:trigger IoOf(t, y)} :: IoOf(t, y) == IoOf(s, y)
  {
    forall y: Sender ensures IoOf(t, y) == IoOf(s, y) {
    }
  }

  lemma WrapIo(s: State, i: nat, k: Kind, a: Arrival)
    requires i < |s.loops|
    ensures OnlyIo(s, Wrap(s, i, k, a), Connector)
  {
    var t := Wrap(s, i, k, a);
    forall y: Sender ensures IoOf(t, y) == IoOf(s, y) {
    }
  }

  lemma RecvIo(c: Config, s: State, i: nat)
    requires CanRead(c, s, i, Recv)
    ensures OnlyIo(s, DoRead(c, s, i, Recv), Connector)
  {
    var g := s.loops[i].consume.gen;
    var p := s.wire[g];
    var r := p.pushed[|p.inbound|];
    var w := s.(wire := s.wire[g := p.(inbound := p.inbound + [r])]);
    SamePlaces(s, w);
    hide Arrivals;
    if Arrivals(Direct)(r) != [] {
      WrapIo(w, i, Direct, Arrivals(Direct)(r)[0]);
      hide Wrap, IoOf;
    } else if Arrivals(Fanned)(r) != [] {
      WrapIo(w, i, Fanned, Arrivals(Fanned)(r)[0]);
      hide Wrap, IoOf;
    } else {
      SamePlaces(s, SetConsume(w, i, AtTop));
    }
    hide IoOf, Wrap;
  }

  lemma ReaderIo(c: Config, s: State, i: nat, r: ReaderStep)
    requires CanRead(c, s, i, r)
    ensures OnlyIo(s, DoRead(c, s, i, r), Connector)
  {
    hide OnlyIo, IoOf;
    if r.Recv? {
      RecvIo(c, s, i);
    } else {
      SamePlaces(s, DoRead(c, s, i, r));
    }
  }

  lemma AckIo(s: State, k: Kind, i: nat, a: AckStep)
    requires CanAck(s, k, i, a)
    ensures OnlyIo(s, DoAck(s, k, i, a), Acker(k, i))
    ensures !Inside(IoOf(s, Acker(k, i))) && !Inside(IoOf(DoAck(s, k, i, a), Acker(k, i)))
  {
  }

  lemma PubIo(c: Config, s: State, i: nat, p: PubStep)
    requires CanPub(c, s, i, p)
    ensures OnlyIo(s, DoPub(c, s, i, p), Publisher(i))
    ensures !Inside(IoOf(s, Publisher(i))) && !Inside(IoOf(DoPub(c, s, i, p), Publisher(i)))
  {
  }

  lemma AcquireIo(s: State, x: Sender)
    requires CanLock(s, x, Acquire)
    ensures OnlyIo(s, DoLock(s, x, Acquire), x) && IoOf(DoLock(s, x, Acquire), x) == Own
  {
  }

  /** Moving one sender leaves the others where they are. */
  lemma SetIoIs(s: State, x: Sender, io: Io)
    requires Exists(s, x)
    ensures OnlyIo(s, SetIo(s, x, io), x) && IoOf(SetIo(s, x, io), x) == io
  {
  }

  lemma CaptureIo(s: State, x: Sender)
    requires CanLock(s, x, Capture) && s.fault.None?
    ensures OnlyIo(s, DoLock(s, x, Capture), x)
    ensures var t := DoLock(s, x, Capture);
            t.fault.None? ==>
              if s.core.stream.Some? then IoOf(t, x) == Busy(s.core.stream.value) && t.mu == s.mu
              else !Inside(IoOf(t, x)) && t.mu.None?
  {
    var u := SetIo(s, x, if s.core.stream.Some? then Busy(s.core.stream.value) else Over(false));
    SetIoIs(s, x, if s.core.stream.Some? then Busy(s.core.stream.value) else Over(false));
    SamePlaces(u, u.(mu := None));
    SamePlaces(s, s.(fault := Some(SendOnNil(x))));
    assert u.mu == s.mu && u.fault == s.fault;
    hide SetIo, IoOf;
  }

  lemma FinishIo(s: State, x: Sender, l: LockStep)
    requires CanLock(s, x, l) && l.Finish?
    ensures OnlyIo(s, DoLock(s, x, l), x) && !Inside(IoOf(DoLock(s, x, l), x))
  {
  }

  lemma LockingKeepsLock(s: State, x: Sender, l: LockStep)
    requires LockInv(s) && CanLock(s, x, l) && s.fault.None?
    requires s.core.stream.Some? ==> s.core.stream.value < |s.wire|
    ensures LockInv(DoLock(s, x, l))
  {
    match l {
      case Acquire => AcquireIo(s, x);
      case Capture => CaptureIo(s, x);
      case Finish(_, _) => FinishIo(s, x, l);
    }
    var t := DoLock(s, x, l);
    if t.fault.None? {
      assert |t.wire| == |s.wire|;
      forall y: Sender
        ensures Inside(IoOf(t, y)) <==> t.mu == Some(y)
        ensures IoOf(t, y).Busy? ==> IoOf(t, y).gen < |t.wire|
      {
        assert Inside(IoOf(s, y)) <==> s.mu == Some(y);
        assert Inside(IoOf(s, x)) <==> s.mu == Some(x);
      }
    }
  }

  /** Only a step of the lock itself moves a sender in or out of the lock, or on under it. */
  ghost predicate InsideSame(s: State, t: State) {
    forall y: Sender {:trigger IoOf(t, y)} :: Inside(IoOf(s, y)) || Inside(IoOf(t, y)) ==> IoOf(t, y) == IoOf(s, y)
  }

  lemma OutsideSteps(c: Config, s: State, a: Action)
    requires Can(c, s, a) && !a.Locking?
    ensures InsideSame(s, Do(c, s, a))
  {
    var x := Connector;
    if a.Heart? {
      x := Beater(a.loop);
      HeartIo(s, a.loop, a.h);
    } else if a.Reader? {
      ReaderIo(c, s, a.loop, a.c);
    } else if a.AckCall? {
      x := Acker(a.kind, a.item);
      AckIo(s, a.kind, a.item, a.a);
    } else if a.Pubs? {
      x := Publisher(a.call);
      PubIo(c, s, a.call, a.p);
    } else {
      PlainIo(c, s, a);
    }
    QuietIsSame(s, Do(c, s, a), x);
  }

  lemma PlainIo(c: Config, s: State, a: Action)
    requires Can(c, s, a) && (a.Run? || a.Take? || a.PubCall? || a.Server?)
    ensures OnlyIo(s, Do(c, s, a), Connector)
  {
    if a.Run? {
      RunIo(c, s, a.r);
    } else if a.PubCall? {
      CallIo(s, a.envelope);
    } else {
      hide OnlyIo;
      SamePlaces(s, Do(c, s, a));
    }
  }

  lemma CallIo(s: State, e: EnvelopeValue)
    ensures OnlyIo(s, s.(pubs := s.pubs + [Pub(e, Rest, false, false)]), Connector)
  {
  }

  /** A launch adds a heartbeat loop at rest; other steps of the run loop add no sender. */
  lemma RunIo(c: Config, s: State, r: RunStep)
    requires CanRun(s, r)
    ensures OnlyIo(s, DoRun(c, s, r), Connector)
  {
    if r.Launch? {
      LaunchIo(c, s);
    } else {
      hide OnlyIo;
      SamePlaces(s, DoRun(c, s, r));
    }
  }

  lemma LaunchIo(c: Config, s: State)
    requires CanRun(s, Launch)
    ensures OnlyIo(s, DoRun(c, s, Launch), Connector)
  {
    var t := DoRun(c, s, Launch);
    forall y: Sender ensures IoOf(t, y) == IoOf(s, y) {
    }
  }

  lemma QuietIsSame(s: State, t: State, x: Sender)
    requires OnlyIo(s, t, x) && !Inside(IoOf(s, x)) && !Inside(IoOf(t, x))
    ensures InsideSame(s, t)
  {
  }

  lemma LockKept(c: Config, s: State, a: Action)
    requires LockInv(s) && Can(c, s, a)
    requires s.core.stream.Some? ==> s.core.stream.value < |s.wire|
    ensures LockInv(Do(c, s, a))
  {
    hide LockInv, InsideSame;
    if a.Locking? {
      hide DoLock, CanLock;
      LockingKeepsLock(s, a.who, a.l);
    } else {
      OutsideFrame(c, s, a);
      hide Can, Do;
      OutsideSteps(c, s, a);
      OutsideKeepsLock(s, Do(c, s, a));
    }
  }

  lemma OutsideFrame(c: Config, s: State, a: Action)
    requires Can(c, s, a) && !a.Locking?
    ensures Do(c, s, a).mu == s.mu && |s.wire| <= |Do(c, s, a).wire|
  {
    if a.Reader? {
      ReaderFrame(c, s, a.loop, a.c);
      hide DoRead;
    }
  }

  lemma ReaderFrame(c: Config, s: State, i: nat, r: ReaderStep)
    requires CanRead(c, s, i, r)
    ensures DoRead(c, s, i, r).mu == s.mu && |s.wire| <= |DoRead(c, s, i, r).wire|
  {
    hide Arrivals;
  }

  lemma OutsideKeepsLock(s: State, t: State)
    requires LockInv(s) && InsideSame(s, t) && t.mu == s.mu && |s.wire| <= |t.wire|
    ensures LockInv(t)
  {
    forall y: Sender
      ensures Inside(IoOf(t, y)) <==> t.mu == Some(y)
      ensures IoOf(t, y).Busy? ==> IoOf(t, y).gen < |t.wire|
    {
      assert Inside(IoOf(s, y)) <==> s.mu == Some(y);
    }
  }
}
