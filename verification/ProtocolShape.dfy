/** What every frame, delivery, publish call and session looks like, one element at a time. */
module ProtocolShape {
  import opened Common
  import opened Envelopes
  import opened Frames
  import opened Sessions
  import opened Protocol

  /** A frame of the client: the sender decides its kind, and its body is complete. */
  predicate PacketOk(q: Packet) {
    match q.req
    case Register(info) => q.sender.Connector? && info.Some?
    case Ingress(e) => q.sender.Publisher? && e.Some? && IsNormal(e.value)
    case Ack(a) => q.sender.Acker? && a.Some? && a.value.messageId != "" && a.value.broadcastId == ""
    case Heartbeat(n) => q.sender.Beater? && n.Some?
    case Blank => false
  }

  /** A frame of this server: its envelope is there and normal, and a broadcast id is never filled. */
  predicate ResponseOk(r: Response) {
    match r
    case Deliver(e) => e.Some? && IsNormal(e.value)
    case Broadcast(e, id) => e.Some? && IsNormal(e.value) && id == ""
    case Pong(_) => true
    case Empty => false
  }

  /** The session has read a prefix of what was sent. */
  predicate ReadsSent(read: seq<Request>, sent: seq<Packet>) {
    |read| <= |sent| && forall i :: 0 <= i < |read| ==> read[i] == sent[i].req
  }

  /** The server reads what was sent, the client receives what was pushed: both FIFO, cut off anywhere. */
  predicate PipeOk(p: Pipe) {
    && (forall i :: 0 <= i < |p.sent| ==> PacketOk(p.sent[i]))
    && (forall i :: 0 <= i < |p.asked| ==> ResponseOk(p.asked[i]))
    && (forall i :: 0 <= i < |p.pushed| ==> ResponseOk(p.pushed[i]))
    && ReadsSent(p.session.read, p.sent)
    && Shaped(p.session)
    && p.inbound <= p.pushed
  }

  /** An ack promise runs at most once, and settles without a frame when there is no id to acknowledge. */
  predicate ItemOk(k: Kind, it: Item) {
    && IsNormal(it.arrival.envelope)
    && it.arrival.ackId == (if k.Direct? then RequestId(it.arrival.envelope) else "")
    && it.runs == (if it.io.Rest? then 0 else 1)
    && (it.arrival.ackId == "" ==> it.io.Rest? || it.io == Over(true))
    && (it.acked ==> it.io == Over(true) && it.arrival.ackId != "")
  }

  /** A call holds its slot from admission to release, and has sent its frame only once it is over. */
  predicate PubOk(p: Pub) {
    && (p.io.Rest? ==> !p.slot)
    && (p.io.Want? || p.io.Own? || p.io.Busy? ==> p.slot && IsNormal(p.envelope))
    && (p.ingressed ==> p.io == Over(true) && IsNormal(p.envelope))
  }

  /** Every answer of Ack is the settled result of its promise. */
  predicate AnswerOk(s: State, a: Answer) {
    a.item < |LaneOf(s, a.kind).items| && LaneOf(s, a.kind).items[a.item].io == Over(a.ok)
  }

  predicate ShapeInv(s: State) {
    && (forall g {:trigger s.wire[g]} :: 0 <= g < |s.wire| ==> PipeOk(s.wire[g]))
    && (forall i {:trigger s.direct.items[i]} :: 0 <= i < |s.direct.items| ==> ItemOk(Direct, s.direct.items[i]))
    && (forall i {:trigger s.fanned.items[i]} :: 0 <= i < |s.fanned.items| ==> ItemOk(Fanned, s.fanned.items[i]))
    && (forall i {:trigger s.pubs[i]} :: 0 <= i < |s.pubs| ==> PubOk(s.pubs[i]))
    && (forall i {:trigger s.answers[i]} :: 0 <= i < |s.answers| ==> AnswerOk(s, s.answers[i]))
  }

  /** An item that may change: not settled yet, and not acknowledged. */
  lemma ItemKeepsShape(s: State, k: Kind, i: nat, it: Item)
    requires ShapeInv(s) && i < |LaneOf(s, k).items| && !LaneOf(s, k).items[i].io.Over? && ItemOk(k, it)
    ensures ShapeInv(SetItem(s, k, i, it))
  {
    var t := SetItem(s, k, i, it);
    forall j | 0 <= j < |t.answers| ensures AnswerOk(t, t.answers[j]) {
      assert AnswerOk(s, s.answers[j]);
    }
  }

  lemma WireKeepsShape(s: State, g: nat, p: Pipe)
    requires ShapeInv(s) && g < |s.wire| && PipeOk(p)
    ensures ShapeInv(s.(wire := s.wire[g := p]))
  {
  }

  lemma PubKeepsShape(s: State, i: nat, p: Pub)
    requires ShapeInv(s) && i < |s.pubs| && PubOk(p)
    ensures ShapeInv(s.(pubs := s.pubs[i := p]))
  {
  }

  lemma NextKeepsPipe(p: Pipe, ok: bool)
    requires PipeOk(p) && |p.session.read| < |p.sent| && !p.session.phase.Ended?
    ensures PipeOk(Served(p, ServeNext(ok)))
  {
    var r := p.sent[|p.session.read|].req;
    ServeShaped(p.session, r, ok);
    ServeReads(p.session, r, ok);
    hide Serve, Shaped, PacketOk, ResponseOk;
  }

  lemma HangupKeepsPipe(p: Pipe)
    requires PipeOk(p)
    ensures PipeOk(Served(p, ServeHangup))
  {
    HangupShaped(p.session);
    hide Shaped, PacketOk, ResponseOk;
  }

  lemma AskKeepsPipe(p: Pipe, push: PushFrame, up: bool)
    requires PipeOk(p)
    ensures PipeOk(Served(p, Send(push, up)))
  {
    FrameIsOk(push);
    hide Shaped, PacketOk, ResponseOk, FrameOf;
  }

  lemma ServeKeepsPipe(p: Pipe, v: ServerStep)
    requires PipeOk(p) && (v.ServeNext? ==> |p.session.read| < |p.sent| && !p.session.phase.Ended?)
    ensures PipeOk(Served(p, v))
  {
    hide PipeOk, Served;
    match v
    case ServeNext(ok) => NextKeepsPipe(p, ok);
    case ServeHangup => HangupKeepsPipe(p);
    case Send(push, up) => AskKeepsPipe(p, push, up);
  }

  lemma FrameIsOk(push: PushFrame)
    ensures ResponseOk(FrameOf(push))
  {
    match push
    case PushDeliver(e, id, t, u) => NormalizedCompletes(e, id, t, u);
    case PushBroadcast(e, id, t, u) => NormalizedCompletes(e, id, t, u);
    case PushHeartbeat(_) =>
  }

  lemma RecvKeepsShape(s: State, i: nat)
    requires ShapeInv(s) && i < |s.loops| && s.loops[i].consume.InRecv?
    requires s.loops[i].consume.gen < |s.wire|
    requires |s.wire[s.loops[i].consume.gen].inbound| < |s.wire[s.loops[i].consume.gen].pushed|
    ensures ShapeInv(DoRecv(s, i))
  {
    var g := s.loops[i].consume.gen;
    var p := s.wire[g];
    var r := p.pushed[|p.inbound|];
    assert PipeOk(p.(inbound := p.inbound + [r]));
    WireKeepsShape(s, g, p.(inbound := p.inbound + [r]));
    var w := s.(wire := s.wire[g := p.(inbound := p.inbound + [r])]);
    if Arrivals(Direct)(r) != [] {
      WrapKeepsShape(w, i, Direct, Arrivals(Direct)(r)[0]);
    } else if Arrivals(Fanned)(r) != [] {
      WrapKeepsShape(w, i, Fanned, Arrivals(Fanned)(r)[0]);
    }
  }

  lemma WrapKeepsShape(s: State, i: nat, k: Kind, a: Arrival)
    requires ShapeInv(s) && i < |s.loops| && ItemOk(k, Item(a, Rest, 0, false))
    ensures ShapeInv(Wrap(s, i, k, a))
  {
    var t := Wrap(s, i, k, a);
    forall j | 0 <= j < |t.answers| ensures AnswerOk(t, t.answers[j]) {
      assert AnswerOk(s, s.answers[j]);
    }
  }

  /** What a sender inside Send puts on the wire is well formed. */
  lemma RequestIsOk(s: State, x: Sender, nonce: string)
    requires ShapeInv(s) && Exists(s, x) && IoOf(s, x).Busy?
    ensures PacketOk(Packet(x, RequestOf(s, x, nonce)))
  {
    match x
    case Acker(k, i) => assert ItemOk(k, LaneOf(s, k).items[i]);
    case Publisher(i) => assert PubOk(s.pubs[i]);
    case Beater(_) =>
  }

  lemma TransmitKeepsShape(s: State, g: nat, q: Packet)
    requires ShapeInv(s) && g < |s.wire| && PacketOk(q)
    ensures ShapeInv(s.(wire := Transmit(s.wire, g, q)))
  {
    assert PipeOk(s.wire[g]);
    assert PipeOk(Transmit(s.wire, g, q)[g]) by {
      hide ShapeInv, PacketOk, ResponseOk, Shaped;
    }
    hide PipeOk;
    WireKeepsShape(s, g, Transmit(s.wire, g, q)[g]);
  }

  lemma FinishKeepsShape(s: State, x: Sender, l: LockStep)
    requires ShapeInv(s) && CanLock(s, x, l) && l.Finish?
    ensures ShapeInv(DoLock(s, x, l))
  {
    var g := IoOf(s, x).gen;
    var q := Packet(x, RequestOf(s, x, l.nonce));
    var w := if l.ok then s.(wire := Transmit(s.wire, g, q)) else s;
    if l.ok {
      hide ShapeInv;
      RequestIsOk(s, x, l.nonce);
      TransmitKeepsShape(s, g, q);
    }
    assert ShapeInv(w);
    FinishedIsOk(s, x, l);
    hide ShapeInv, ItemOk, PubOk, RequestOf, Transmit;
    ProgressKeepsShape(w, DoLock(s, x, l), x);
  }

  /** A sender that is through the lock is in a well-formed place. */
  lemma FinishedIsOk(s: State, x: Sender, l: LockStep)
    requires ShapeInv(s) && CanLock(s, x, l) && l.Finish?
    ensures var t := DoLock(s, x, l);
            && (x.Acker? ==> ItemOk(x.kind, LaneOf(t, x.kind).items[x.item]))
            && (x.Publisher? ==> PubOk(t.pubs[x.call]))
  {
    match x
    case Acker(k, i) => assert ItemOk(k, LaneOf(s, k).items[i]);
    case Publisher(i) => assert PubOk(s.pubs[i]);
    case Beater(_) =>
  }

  /** `t` has only moved sender `x` along, to a well-formed place. */
  lemma ProgressKeepsShape(s: State, t: State, x: Sender)
    requires ShapeInv(s) && Exists(s, x) && t.wire == s.wire && t.answers == s.answers && !IoOf(s, x).Over?
    requires x.Acker? ==>
      && |LaneOf(t, x.kind).items| == |LaneOf(s, x.kind).items| && t.pubs == s.pubs
      && ItemOk(x.kind, LaneOf(t, x.kind).items[x.item])
      && var u := SetItem(s, x.kind, x.item, LaneOf(t, x.kind).items[x.item]);
         t.direct == u.direct && t.fanned == u.fanned
    requires !x.Acker? ==> t.direct == s.direct && t.fanned == s.fanned
    requires x.Publisher? ==>
      |t.pubs| == |s.pubs| && t.pubs == s.pubs[x.call := t.pubs[x.call]] && PubOk(t.pubs[x.call])
    requires x.Beater? ==> t.pubs == s.pubs
    ensures ShapeInv(t)
  {
    match x
    case Acker(k, i) =>
      var u := SetItem(s, k, i, LaneOf(t, k).items[i]);
      ItemKeepsShape(s, k, i, LaneOf(t, k).items[i]);
      forall j | 0 <= j < |t.answers| ensures AnswerOk(t, t.answers[j]) {
        assert AnswerOk(u, u.answers[j]);
      }
    case Publisher(i) => AnswersDependOnItems(s, t);
    case Beater(_) => AnswersDependOnItems(s, t);
  }

  lemma AnswersDependOnItems(s: State, t: State)
    requires ShapeInv(s) && t.direct.items == s.direct.items && t.fanned.items == s.fanned.items && t.answers == s.answers
    ensures forall j :: 0 <= j < |t.answers| ==> AnswerOk(t, t.answers[j])
  {
    forall j | 0 <= j < |t.answers| ensures AnswerOk(t, t.answers[j]) {
      assert AnswerOk(s, s.answers[j]);
    }
  }

  lemma LockKeepsShape(s: State, x: Sender, l: LockStep)
    requires ShapeInv(s) && CanLock(s, x, l) && s.fault.None?
    ensures ShapeInv(DoLock(s, x, l))
  {
    if l.Finish? {
      FinishKeepsShape(s, x, l);
    } else if DoLock(s, x, l).fault.None? {
      match x {
        case Acker(k, i) => assert ItemOk(k, LaneOf(s, k).items[i]);
        case Publisher(i) => assert PubOk(s.pubs[i]);
        case Beater(_) =>
      }
      ProgressKeepsShape(s, DoLock(s, x, l), x);
    } else {
      AnswersDependOnItems(s, DoLock(s, x, l));
    }
  }

  lemma AckKeepsShape(s: State, k: Kind, i: nat, a: AckStep)
    requires ShapeInv(s) && CanAck(s, k, i, a)
    ensures ShapeInv(DoAck(s, k, i, a))
  {
    var it := LaneOf(s, k).items[i];
    assert ItemOk(k, it);
    if a.Begin? {
      ItemKeepsShape(s, k, i, LaneOf(DoAck(s, k, i, a), k).items[i]);
    } else {
      AnswersDependOnItems(s, s);
      var t := DoAck(s, k, i, a);
      forall j | 0 <= j < |t.answers| ensures AnswerOk(t, t.answers[j]) {
        if j < |s.answers| {
          assert AnswerOk(s, s.answers[j]);
        }
      }
    }
  }

  lemma PubStepKeepsShape(c: Config, s: State, i: nat, p: PubStep)
    requires ShapeInv(s) && CanPub(c, s, i, p)
    ensures ShapeInv(DoPub(c, s, i, p))
  {
    var t := DoPub(c, s, i, p);
    assert PubOk(s.pubs[i]);
    if p.Admit? {
      NormalizedCompletes(s.pubs[i].envelope, p.id, p.t, p.u);
    }
    PubKeepsShape(s, i, t.pubs[i]);
    AnswersDependOnItems(s, t);
  }

  /** None of the parts changes. */
  lemma SameKeepsShape(s: State, t: State)
    requires ShapeInv(s) && t.wire == s.wire && t.pubs == s.pubs && t.answers == s.answers
    requires t.direct.items == s.direct.items && t.fanned.items == s.fanned.items
    ensures ShapeInv(t)
  {
    AnswersDependOnItems(s, t);
    hide PipeOk, ItemOk, PubOk, AnswerOk;
  }

  lemma RunKeepsShape(c: Config, s: State, r: RunStep)
    requires ShapeInv(s) && CanRun(s, r)
    ensures ShapeInv(DoRun(c, s, r))
  {
    hide ShapeInv;
    var t := DoRun(c, s, r);
    if r.RegisterSent? {
      var w := s.(wire := t.wire);
      TransmitKeepsShape(s, s.core.run.gen, Packet(Connector, Register(Some(c.info))));
      SameKeepsShape(w, t);
    } else if r.OpenStream? {
      OpenKeepsShape(s);
      SameKeepsShape(s.(wire := t.wire), t);
    } else {
      SameKeepsShape(s, t);
    }
  }

  lemma OpenKeepsShape(s: State)
    requires ShapeInv(s)
    ensures ShapeInv(s.(wire := s.wire + [NEW_PIPE]))
  {
    AnswersDependOnItems(s, s.(wire := s.wire + [NEW_PIPE]));
  }

  lemma CallKeepsShape(s: State, e: EnvelopeValue)
    requires ShapeInv(s)
    ensures ShapeInv(s.(pubs := s.pubs + [Pub(e, Rest, false, false)]))
  {
    AnswersDependOnItems(s, s.(pubs := s.pubs + [Pub(e, Rest, false, false)]));
    hide PipeOk, ItemOk, AnswerOk;
  }

  lemma ReaderKeepsShape(c: Config, s: State, i: nat, r: ReaderStep)
    requires ShapeInv(s) && CanRead(c, s, i, r)
    ensures ShapeInv(DoRead(c, s, i, r))
  {
    hide ShapeInv;
    if r.Recv? {
      RecvKeepsShape(s, i);
    } else {
      SameKeepsShape(s, DoRead(c, s, i, r));
    }
  }

  lemma ServerKeepsShape(s: State, g: nat, v: ServerStep)
    requires ShapeInv(s) && CanServe(s, g, v)
    ensures ShapeInv(s.(wire := s.wire[g := Served(s.wire[g], v)]))
  {
    assert PipeOk(s.wire[g]);
    hide PipeOk, Served, ShapeInv;
    ServeKeepsPipe(s.wire[g], v);
    WireKeepsShape(s, g, Served(s.wire[g], v));
  }

  lemma ShapeKept(c: Config, s: State, a: Action)
    requires ShapeInv(s) && Can(c, s, a)
    ensures ShapeInv(Do(c, s, a))
  {
    hide ShapeInv;
    match a
    case Run(r) => RunKeepsShape(c, s, r);
    case Reader(i, r) => ReaderKeepsShape(c, s, i, r);
    case Locking(x, l) => LockKeepsShape(s, x, l);
    case AckCall(k, i, w) => AckKeepsShape(s, k, i, w);
    case Pubs(i, p) => PubStepKeepsShape(c, s, i, p);
    case Server(g, v) => ServerKeepsShape(s, g, v);
    case Take(_) => SameKeepsShape(s, Do(c, s, a));
    case PubCall(e) => CallKeepsShape(s, e);
    case Heart(_, _) => SameKeepsShape(s, Do(c, s, a));
  }
}
