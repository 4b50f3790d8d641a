/** Counting over every stream of a run: frames per call, frames per acknowledged id, occupied slots. */
module ProtocolCount {
  import opened Common
  import opened Envelopes
  import opened Frames
  import opened Protocol
  import opened ProtocolShape

  // ----- what is counted

  function SentBy(x: Sender): Packet -> nat {
    (q: Packet) => if q.sender == x then 1 else 0
  }

  /** An Ack frame for message `m`. */
  function AckFrame(m: string): Packet -> nat {
    (q: Packet) => if q.req.Ack? && q.req.ack.Some? && q.req.ack.value.messageId == m then 1 else 0
  }

  function InSent(f: Packet -> nat): Pipe -> nat {
    (p: Pipe) => Total(p.sent, f)
  }

  /** Frames counted by `f` on all streams of the run so far. */
  function OnWires(wire: seq<Pipe>, f: Packet -> nat): nat {
    Total(wire, InSent(f))
  }

  function AckedAs(m: string): Item -> nat {
    (it: Item) => if it.acked && it.arrival.ackId == m then 1 else 0
  }

  function Holds(): Pub -> nat {
    (p: Pub) => if p.slot then 1 else 0
  }

  /** A Deliver frame whose request id is `m`. */
  function DeliverOf(m: string): Response -> nat {
    (r: Response) => if r.Deliver? && r.envelope.Some? && RequestId(r.envelope.value) == m then 1 else 0
  }

  /** Publishers and ackers send at most once each. */
  predicate OneShot(x: Sender) {
    x.Publisher? || x.Acker?
  }

  /** How many frames a one-shot sender claims to have sent. */
  function Claimed(s: State, x: Sender): nat {
    if !OneShot(x) || !Exists(s, x) then 0
    else match x
         case Publisher(i) => if s.pubs[i].ingressed then 1 else 0
         case Acker(k, i) => if LaneOf(s, k).items[i].acked then 1 else 0
  }

  predicate Slots(c: Config, s: State) {
    && s.emptyReleases == 0
    && s.inflight == (if c.slots.Some? then Total(s.pubs, Holds()) else 0)
    && (c.slots.Some? ==> s.inflight <= c.slots.value)
  }

  ghost predicate OncePerSender(s: State) {
    forall x: Sender {:trigger SentBy(x)} :: OneShot(x) ==> OnWires(s.wire, SentBy(x)) == Claimed(s, x)
  }

  ghost predicate AckFrames(s: State) {
    forall m: string {:trigger AckFrame(m)} ::
      m != "" ==> OnWires(s.wire, AckFrame(m)) == Total(s.direct.items, AckedAs(m))
  }

  /** The transport takes at most what the server asked it to send. */
  ghost predicate Asked(s: State) {
    forall g, m: string {:trigger s.wire[g], DeliverOf(m)} :: 0 <= g < |s.wire| ==>
      Total(s.wire[g].pushed, DeliverOf(m)) <= Total(s.wire[g].asked, DeliverOf(m))
  }

  ghost predicate CountInv(c: Config, s: State) {
    Slots(c, s) && OncePerSender(s) && AckFrames(s) && Asked(s)
  }

  // ----- how the counts follow one step

  lemma TransmitCounts(wire: seq<Pipe>, g: nat, q: Packet, f: Packet -> nat)
    requires g < |wire|
    ensures OnWires(Transmit(wire, g, q), f) == OnWires(wire, f) + f(q)
  {
    TotalUpdate(wire, g, Transmit(wire, g, q)[g], InSent(f));
    TotalPush(wire[g].sent, q, f);
  }

  lemma SameSentCounts(wire: seq<Pipe>, g: nat, p: Pipe, f: Packet -> nat)
    requires g < |wire| && p.sent == wire[g].sent
    ensures OnWires(wire[g := p], f) == OnWires(wire, f)
  {
    TotalUpdate(wire, g, p, InSent(f));
  }

  lemma NewStreamCounts(wire: seq<Pipe>, f: Packet -> nat)
    ensures OnWires(wire + [NEW_PIPE], f) == OnWires(wire, f)
  {
    TotalPush(wire, NEW_PIPE, InSent(f));
  }

  /** A change of one pipe that sends nothing from the client. */
  lemma PipeKeepsCounts(c: Config, s: State, g: nat, p: Pipe)
    requires CountInv(c, s) && g < |s.wire| && p.sent == s.wire[g].sent
    requires forall m: string {:trigger DeliverOf(m)} :: Total(p.pushed, DeliverOf(m)) <= Total(p.asked, DeliverOf(m))
    ensures CountInv(c, s.(wire := s.wire[g := p]))
  {
    hide Total;
    forall f: Packet -> nat {:trigger OnWires(s.wire, f)} ensures OnWires(s.wire[g := p], f) == OnWires(s.wire, f) {
      SameSentCounts(s.wire, g, p, f);
    }
    var t := s.(wire := s.wire[g := p]);
    forall x: Sender | OneShot(x) ensures OnWires(t.wire, SentBy(x)) == Claimed(t, x) {
      assert OnWires(s.wire, SentBy(x)) == Claimed(s, x);
    }
    forall m: string | m != "" ensures OnWires(t.wire, AckFrame(m)) == Total(t.direct.items, AckedAs(m)) {
      assert OnWires(s.wire, AckFrame(m)) == Total(s.direct.items, AckedAs(m));
    }
  }

  lemma ServerKeepsCounts(c: Config, s: State, g: nat, v: ServerStep)
    requires CountInv(c, s) && CanServe(s, g, v)
    ensures CountInv(c, s.(wire := s.wire[g := Served(s.wire[g], v)]))
  {
    var p := s.wire[g];
    forall m: string
      ensures Total(Served(p, v).pushed, DeliverOf(m)) <= Total(Served(p, v).asked, DeliverOf(m))
    {
      assert Total(p.pushed, DeliverOf(m)) <= Total(p.asked, DeliverOf(m));
      if v.Send? {
        TotalPush(p.asked, FrameOf(v.push), DeliverOf(m));
        TotalPush(p.pushed, FrameOf(v.push), DeliverOf(m));
      }
    }
    PipeKeepsCounts(c, s, g, Served(p, v));
  }

  /** The frame a sender puts on a wire counts for that sender and, for an ack of kind Direct, for its id. */
  lemma SendKeepsCounts(c: Config, s: State, t: State, x: Sender, g: nat, q: Packet)
    requires ShapeInv(s) && CountInv(c, s) && g < |s.wire| && q.sender == x && (x.Connector? || Exists(s, x))
    requires t.wire == Transmit(s.wire, g, q)
    requires Slots(c, t)
    requires forall y: Sender :: OneShot(y) ==>
      Claimed(t, y) == Claimed(s, y) + (if y == x then 1 else 0)
    requires forall m: string {:trigger AckFrame(m)} :: m != "" ==>
      Total(t.direct.items, AckedAs(m)) == Total(s.direct.items, AckedAs(m)) + AckFrame(m)(q)
    ensures CountInv(c, t)
  {
    hide Total;
    forall y: Sender | OneShot(y) ensures OnWires(t.wire, SentBy(y)) == Claimed(t, y) {
      TransmitCounts(s.wire, g, q, SentBy(y));
      assert OnWires(s.wire, SentBy(y)) == Claimed(s, y);
    }
    forall m: string | m != "" ensures OnWires(t.wire, AckFrame(m)) == Total(t.direct.items, AckedAs(m)) {
      TransmitCounts(s.wire, g, q, AckFrame(m));
    }
    forall h, m: string | 0 <= h < |t.wire|
      ensures Total(t.wire[h].pushed, DeliverOf(m)) <= Total(t.wire[h].asked, DeliverOf(m))
    {
      assert Total(s.wire[h].pushed, DeliverOf(m)) <= Total(s.wire[h].asked, DeliverOf(m));
    }
  }

  lemma SameClaims(s: State, t: State)
    requires t.pubs == s.pubs && t.direct.items == s.direct.items && t.fanned.items == s.fanned.items
    ensures forall y: Sender :: Claimed(t, y) == Claimed(s, y)
  {
    forall y: Sender ensures Claimed(t, y) == Claimed(s, y) {
    }
  }

  /** Nothing is sent, and no sender claims anything new. */
  lemma SilentKeepsCounts(c: Config, s: State, t: State)
    requires CountInv(c, s) && t.wire == s.wire && Slots(c, t)
    requires forall y: Sender :: Claimed(t, y) == Claimed(s, y)
    requires forall m: string {:trigger AckFrame(m)} :: Total(t.direct.items, AckedAs(m)) == Total(s.direct.items, AckedAs(m))
    ensures CountInv(c, t)
  {
    hide Total;
    forall y: Sender | OneShot(y) ensures OnWires(t.wire, SentBy(y)) == Claimed(t, y) {
      assert OnWires(s.wire, SentBy(y)) == Claimed(s, y);
    }
    forall m: string | m != "" ensures OnWires(t.wire, AckFrame(m)) == Total(t.direct.items, AckedAs(m)) {
      assert OnWires(s.wire, AckFrame(m)) == Total(s.direct.items, AckedAs(m));
    }
  }

  /** None of the counted fields changes. */
  lemma SameKeepsCounts(c: Config, s: State, t: State)
    requires CountInv(c, s) && t.wire == s.wire && t.pubs == s.pubs
    requires t.direct.items == s.direct.items && t.fanned.items == s.fanned.items
    requires t.inflight == s.inflight && t.emptyReleases == s.emptyReleases
    ensures CountInv(c, t)
  {
    hide Total;
    SameClaims(s, t);
    SilentKeepsCounts(c, s, t);
  }

  lemma ItemCounts(items: seq<Item>, i: nat, it: Item, m: string)
    requires i < |items| && it.arrival == items[i].arrival && !items[i].acked
    ensures Total(items[i := it], AckedAs(m)) == Total(items, AckedAs(m)) + AckedAs(m)(it)
  {
    TotalUpdate(items, i, it, AckedAs(m));
  }

  lemma PubCounts(pubs: seq<Pub>, i: nat, p: Pub)
    requires i < |pubs|
    ensures Total(pubs[i := p], Holds()) + Holds()(pubs[i]) == Total(pubs, Holds()) + Holds()(p)
    ensures Holds()(pubs[i]) <= Total(pubs, Holds())
  {
    TotalUpdate(pubs, i, p, Holds());
    TotalElement(pubs, i, Holds());
  }

  lemma PubFinishKeepsCounts(c: Config, s: State, i: nat, l: LockStep)
    requires ShapeInv(s) && CountInv(c, s) && CanLock(s, Publisher(i), l) && l.Finish?
    ensures CountInv(c, DoLock(s, Publisher(i), l))
  {
    hide Total;
    var t := DoLock(s, Publisher(i), l);
    assert PubOk(s.pubs[i]);
    PubCounts(s.pubs, i, t.pubs[i]);
    if l.ok {
      SendKeepsCounts(c, s, t, Publisher(i), s.pubs[i].io.gen, Packet(Publisher(i), RequestOf(s, Publisher(i), l.nonce)));
    } else {
      SilentKeepsCounts(c, s, t);
    }
  }

  /** Finishing an ack acknowledges its item, and no other. */
  lemma AckFinishCounts(s: State, x: Sender, l: LockStep)
    requires ShapeInv(s) && CanLock(s, x, l) && l.Finish? && x.Acker?
    ensures var t := DoLock(s, x, l);
            forall m: string {:trigger AckedAs(m)} :: x.kind.Direct? ==>
              Total(t.direct.items, AckedAs(m)) == Total(s.direct.items, AckedAs(m)) + AckedAs(m)(t.direct.items[x.item])
  {
    hide Total;
    var t := DoLock(s, x, l);
    assert ItemOk(x.kind, LaneOf(s, x.kind).items[x.item]);
    forall m: string ensures x.kind.Direct? ==>
      Total(t.direct.items, AckedAs(m)) == Total(s.direct.items, AckedAs(m)) + AckedAs(m)(t.direct.items[x.item])
    {
      if x.kind.Direct? {
        ItemCounts(s.direct.items, x.item, t.direct.items[x.item], m);
      }
    }
  }

  /** A finished ack claims its frame exactly when it was sent; nobody else's claim changes. */
  lemma AckFinishClaims(s: State, x: Sender, l: LockStep)
    requires ShapeInv(s) && CanLock(s, x, l) && l.Finish? && x.Acker?
    ensures var t := DoLock(s, x, l);
            forall y: Sender :: Claimed(t, y) == Claimed(s, y) + (if l.ok && y == x then 1 else 0)
  {
    assert ItemOk(x.kind, LaneOf(s, x.kind).items[x.item]);
  }

  lemma AckFinishKeepsCounts(c: Config, s: State, x: Sender, l: LockStep)
    requires ShapeInv(s) && CountInv(c, s) && CanLock(s, x, l) && l.Finish? && x.Acker?
    ensures CountInv(c, DoLock(s, x, l))
  {
    var t := DoLock(s, x, l);
    AckFinishCounts(s, x, l);
    AckFinishClaims(s, x, l);
    hide Total, Claimed, ItemOk, ShapeInv;
    if l.ok {
      SendKeepsCounts(c, s, t, x, IoOf(s, x).gen, Packet(x, RequestOf(s, x, l.nonce)));
    } else {
      SilentKeepsCounts(c, s, t);
    }
  }

  lemma BeatFinishKeepsCounts(c: Config, s: State, i: nat, l: LockStep)
    requires ShapeInv(s) && CountInv(c, s) && CanLock(s, Beater(i), l) && l.Finish?
    ensures CountInv(c, DoLock(s, Beater(i), l))
  {
    hide Total;
    var t := DoLock(s, Beater(i), l);
    SameClaims(s, t);
    if l.ok {
      SendKeepsCounts(c, s, t, Beater(i), s.loops[i].beat.gen, Packet(Beater(i), RequestOf(s, Beater(i), l.nonce)));
    } else {
      SilentKeepsCounts(c, s, t);
    }
  }

  lemma LockKeepsCounts(c: Config, s: State, x: Sender, l: LockStep)
    requires ShapeInv(s) && CountInv(c, s) && s.fault.None? && CanLock(s, x, l)
    ensures CountInv(c, DoLock(s, x, l))
  {
    hide Total, CountInv, ShapeInv;
    var t := DoLock(s, x, l);
    if l.Finish? {
      match x
      case Publisher(i) => PubFinishKeepsCounts(c, s, i, l);
      case Acker(_, _) => AckFinishKeepsCounts(c, s, x, l);
      case Beater(i) => BeatFinishKeepsCounts(c, s, i, l);
    } else if x.Beater? || t.fault.Some? {
      SameKeepsCounts(c, s, t);
    } else if x.Acker? {
      ItemStepKeepsCounts(c, s, x.kind, x.item, LaneOf(t, x.kind).items[x.item]);
      SameKeepsCounts(c, SetItem(s, x.kind, x.item, LaneOf(t, x.kind).items[x.item]), t);
    } else {
      PubMoveKeepsCounts(c, s, t, x.call);
    }
  }

  /** A publisher moves between stages inside its slot. */
  lemma PubMoveKeepsCounts(c: Config, s: State, t: State, i: nat)
    requires CountInv(c, s) && i < |s.pubs| && t.wire == s.wire
    requires |t.pubs| == |s.pubs| && t.pubs == s.pubs[i := s.pubs[i].(io := t.pubs[i].io)]
    requires t.direct.items == s.direct.items && t.fanned.items == s.fanned.items
    requires t.inflight == s.inflight && t.emptyReleases == s.emptyReleases
    ensures CountInv(c, t)
  {
    hide Total;
    PubCounts(s.pubs, i, t.pubs[i]);
    SilentKeepsCounts(c, s, t);
  }

  /** A step of an ack promise that does not acknowledge. */
  lemma ItemStepKeepsCounts(c: Config, s: State, k: Kind, i: nat, it: Item)
    requires ShapeInv(s) && CountInv(c, s) && i < |LaneOf(s, k).items|
    requires it == LaneOf(s, k).items[i].(io := it.io, runs := it.runs) && !LaneOf(s, k).items[i].io.Over?
    ensures CountInv(c, SetItem(s, k, i, it))
  {
    hide Total;
    assert ItemOk(k, LaneOf(s, k).items[i]);
    var t := SetItem(s, k, i, it);
    forall m: string ensures Total(t.direct.items, AckedAs(m)) == Total(s.direct.items, AckedAs(m)) {
      if k.Direct? {
        ItemCounts(s.direct.items, i, it, m);
      }
    }
    SilentKeepsCounts(c, s, t);
  }

  lemma PubKeepsCounts(c: Config, s: State, i: nat, p: PubStep)
    requires ShapeInv(s) && CountInv(c, s) && CanPub(c, s, i, p)
    ensures CountInv(c, DoPub(c, s, i, p))
  {
    hide Total;
    var t := DoPub(c, s, i, p);
    assert PubOk(s.pubs[i]);
    PubCounts(s.pubs, i, t.pubs[i]);
    SilentKeepsCounts(c, s, t);
  }

  lemma WrapKeepsCounts(c: Config, s: State, i: nat, k: Kind, a: Arrival)
    requires CountInv(c, s) && i < |s.loops|
    ensures CountInv(c, Wrap(s, i, k, a))
  {
    hide Total;
    var t := Wrap(s, i, k, a);
    forall m: string ensures Total(t.direct.items, AckedAs(m)) == Total(s.direct.items, AckedAs(m)) {
      TotalPush(s.direct.items, Item(a, Rest, 0, false), AckedAs(m));
    }
    SilentKeepsCounts(c, s, t);
  }

  lemma RecvKeepsCounts(c: Config, s: State, i: nat)
    requires CountInv(c, s) && CanRead(c, s, i, Recv)
    ensures CountInv(c, DoRecv(s, i))
  {
    hide Total;
    var g := s.loops[i].consume.gen;
    var p := s.wire[g];
    var r := p.pushed[|p.inbound|];
    var q := p.(inbound := p.inbound + [r]);
    forall m: string ensures Total(q.pushed, DeliverOf(m)) <= Total(q.asked, DeliverOf(m)) {
      assert Total(s.wire[g].pushed, DeliverOf(m)) <= Total(s.wire[g].asked, DeliverOf(m));
    }
    PipeKeepsCounts(c, s, g, q);
    var w := s.(wire := s.wire[g := q]);
    if Arrivals(Direct)(r) != [] {
      WrapKeepsCounts(c, w, i, Direct, Arrivals(Direct)(r)[0]);
    } else if Arrivals(Fanned)(r) != [] {
      WrapKeepsCounts(c, w, i, Fanned, Arrivals(Fanned)(r)[0]);
    }
  }

  lemma OpenKeepsCounts(c: Config, s: State, t: State)
    requires CountInv(c, s) && t == s.(wire := t.wire, core := t.core) && t.wire == s.wire + [NEW_PIPE]
    ensures CountInv(c, t)
  {
    forall x: Sender | OneShot(x) ensures OnWires(t.wire, SentBy(x)) == Claimed(t, x) {
      NewStreamCounts(s.wire, SentBy(x));
    }
    forall m: string | m != "" ensures OnWires(t.wire, AckFrame(m)) == Total(t.direct.items, AckedAs(m)) {
      NewStreamCounts(s.wire, AckFrame(m));
    }
  }

  lemma RunKeepsCounts(c: Config, s: State, r: RunStep)
    requires ShapeInv(s) && CountInv(c, s) && CanRun(s, r)
    ensures CountInv(c, DoRun(c, s, r))
  {
    hide Total;
    var t := DoRun(c, s, r);
    if r.OpenStream? {
      OpenKeepsCounts(c, s, t);
    } else if r.RegisterSent? {
      SendKeepsCounts(c, s, t, Connector, s.core.run.gen, Packet(Connector, Register(Some(c.info))));
    } else {
      SameKeepsCounts(c, s, t);
    }
  }

  lemma CallKeepsCounts(c: Config, s: State, e: EnvelopeValue)
    requires CountInv(c, s) && Can(c, s, PubCall(e))
    ensures CountInv(c, Do(c, s, PubCall(e)))
  {
    hide Total;
    var t := Do(c, s, PubCall(e));
    TotalPush(s.pubs, t.pubs[|s.pubs|], Holds());
    SilentKeepsCounts(c, s, t);
  }

  lemma ReaderKeepsCounts(c: Config, s: State, i: nat, r: ReaderStep)
    requires CountInv(c, s) && CanRead(c, s, i, r)
    ensures CountInv(c, DoRead(c, s, i, r))
  {
    hide Total, CountInv;
    if r.Recv? {
      RecvKeepsCounts(c, s, i);
    } else {
      SameKeepsCounts(c, s, DoRead(c, s, i, r));
    }
  }

  lemma AckKeepsCounts(c: Config, s: State, k: Kind, i: nat, w: AckStep)
    requires ShapeInv(s) && CountInv(c, s) && CanAck(s, k, i, w)
    ensures CountInv(c, DoAck(s, k, i, w))
  {
    hide Total, CountInv, ShapeInv;
    if w.Begin? {
      ItemStepKeepsCounts(c, s, k, i, LaneOf(DoAck(s, k, i, w), k).items[i]);
    } else {
      SameKeepsCounts(c, s, DoAck(s, k, i, w));
    }
  }

  lemma CountKept(c: Config, s: State, a: Action)
    requires ShapeInv(s) && CountInv(c, s) && Can(c, s, a)
    ensures CountInv(c, Do(c, s, a))
  {
    hide Total, CountInv, ShapeInv;
    match a
    case Run(r) => RunKeepsCounts(c, s, r);
    case Reader(i, r) => ReaderKeepsCounts(c, s, i, r);
    case Locking(x, l) => LockKeepsCounts(c, s, x, l);
    case AckCall(k, i, w) => AckKeepsCounts(c, s, k, i, w);
    case PubCall(e) => CallKeepsCounts(c, s, e);
    case Pubs(i, p) => PubKeepsCounts(c, s, i, p);
    case Server(g, v) => ServerKeepsCounts(c, s, g, v);
    case Take(_) => SameKeepsCounts(c, s, Do(c, s, a));
    case Heart(_, _) => SameKeepsCounts(c, s, Do(c, s, a));
  }
}
