/** What holds in every reachable state of the bridge, over every interleaving and any number of reconnects. */
module BridgeTheorems {
  import opened Common
  import opened Envelopes
  import opened Frames
  import opened Sessions
  import opened Protocol
  import opened ProtocolLife
  import opened ProtocolLock
  import opened ProtocolFlow
  import opened ProtocolShape
  import opened ProtocolCount
  import opened ProtocolOpening
  import opened ProtocolRuns

  // ----- acknowledgements

  function AckCallOf(m: string): Callback -> nat {
    (cb: Callback) => if cb.OnAck? && cb.ack.messageId == m then 1 else 0
  }

  function CalledFor(m: string): Pipe -> nat {
    (p: Pipe) => Total(p.session.calls, AckCallOf(m))
  }

  /** OnAck callbacks for message `m`, over all sessions. */
  function AckCalls(s: State, m: string): nat {
    Total(s.wire, CalledFor(m))
  }

  function AskedFor(m: string): Pipe -> nat {
    (p: Pipe) => Total(p.asked, DeliverOf(m))
  }

  /** SendDeliver calls whose normalised request id is `m`, over all sessions. */
  function DeliverCalls(s: State, m: string): nat {
    Total(s.wire, AskedFor(m))
  }

  function PacketAck(m: string): Request -> nat {
    (r: Request) => if r.Ack? && r.ack.Some? && r.ack.value.messageId == m then 1 else 0
  }

  function ForId(m: string): Item -> nat {
    (it: Item) => if it.arrival.ackId == m then 1 else 0
  }

  function ArrivalFor(m: string): Arrival -> nat {
    (a: Arrival) => if a.ackId == m then 1 else 0
  }

  /** The callbacks of one frame that are OnAck for `m`. */
  lemma ReactionAcks(r: Request, m: string)
    ensures Each(Reaction, AckCallOf(m))(r) == PacketAck(m)(r)
  {
    hide Total;
    if Reaction(r) == [] {
      TotalFew(OnClose, AckCallOf(m));
    } else {
      assert Reaction(r) == [Reaction(r)[0]];
      TotalFew(Reaction(r)[0], AckCallOf(m));
    }
  }

  /** One session, once registered, calls OnAck for `m` exactly as often as it read such a frame. */
  lemma SessionAcks(s: Session, m: string)
    requires Shaped(s)
    ensures Total(s.calls, AckCallOf(m)) == if Opens(s.read) then Total(s.read, PacketAck(m)) else 0
  {
    hide Total, FlatMap;
    TotalFew(OnClose, AckCallOf(m));
    if Opens(s.read) {
      var first, rest := s.read[0], s.read[1..];
      var begun, reactions := Opened(s.read), Reactions(rest);
      TotalFlatMap(rest, Reaction, AckCallOf(m));
      forall i | 0 <= i < |rest| ensures Each(Reaction, AckCallOf(m))(rest[i]) == PacketAck(m)(rest[i]) {
        ReactionAcks(rest[i], m);
      }
      TotalLeq(rest, Each(Reaction, AckCallOf(m)), PacketAck(m));
      TotalLeq(rest, PacketAck(m), Each(Reaction, AckCallOf(m)));
      assert s.read == [first] + rest && begun == [begun[0]];
      TotalAppend([first], rest, PacketAck(m));
      TotalFew(first, PacketAck(m));
      TotalFew(begun[0], AckCallOf(m));
      TotalAppend(begun, reactions, AckCallOf(m));
      TotalPush(begun + reactions, OnClose, AckCallOf(m));
    }
  }

  lemma {:induction false} ReadIsSent(read: seq<Request>, sent: seq<Packet>, m: string)
    requires |read| <= |sent| && forall i :: 0 <= i < |read| ==> read[i] == sent[i].req
    ensures Total(read, PacketAck(m)) <= Total(sent, AckFrame(m))
    decreases |sent|
  {
    if sent != [] {
      var n := |sent| - 1;
      if |read| == |sent| {
        ReadIsSent(read[..n], sent[..n], m);
      } else {
        ReadIsSent(read, sent[..n], m);
      }
    }
  }

  lemma CallsAreFrames(s: State, m: string)
    requires ShapeInv(s)
    ensures AckCalls(s, m) <= OnWires(s.wire, AckFrame(m))
  {
    forall g | 0 <= g < |s.wire| ensures CalledFor(m)(s.wire[g]) <= InSent(AckFrame(m))(s.wire[g]) {
      var p := s.wire[g];
      assert PipeOk(p);
      SessionAcks(p.session, m);
      ReadIsSent(p.session.read, p.sent, m);
    }
    TotalLeq(s.wire, CalledFor(m), InSent(AckFrame(m)));
  }

  function ReadFor(m: string): Pipe -> nat {
    (p: Pipe) => if Opens(p.session.read) then Total(p.session.read, PacketAck(m)) else 0
  }

  /** Ack frames for `m` that registered sessions have read. */
  function AcksRead(s: State, m: string): nat {
    Total(s.wire, ReadFor(m))
  }

  lemma CallsAreReads(s: State, m: string)
    requires ShapeInv(s)
    ensures AckCalls(s, m) == AcksRead(s, m)
  {
    forall g | 0 <= g < |s.wire| ensures CalledFor(m)(s.wire[g]) == ReadFor(m)(s.wire[g]) {
      assert PipeOk(s.wire[g]);
      SessionAcks(s.wire[g].session, m);
    }
    TotalLeq(s.wire, CalledFor(m), ReadFor(m));
    TotalLeq(s.wire, ReadFor(m), CalledFor(m));
  }

  lemma {:induction false} NoBlankAcks(sent: seq<Packet>)
    requires forall i :: 0 <= i < |sent| ==> PacketOk(sent[i])
    ensures Total(sent, AckFrame("")) == 0
  {
    if sent != [] {
      NoBlankAcks(sent[..|sent| - 1]);
      assert PacketOk(sent[|sent| - 1]);
    }
  }

  function Nought<T>(): T -> nat {
    (x: T) => 0
  }

  lemma {:induction false} NoughtTotal<T>(xs: seq<T>)
    ensures Total(xs, Nought<T>()) == 0
  {
    if xs != [] {
      NoughtTotal(xs[..|xs| - 1]);
    }
  }

  lemma BlankIsNeverAcked(s: State)
    requires ShapeInv(s)
    ensures OnWires(s.wire, AckFrame("")) == 0
  {
    forall g | 0 <= g < |s.wire| ensures InSent(AckFrame(""))(s.wire[g]) <= Nought<Pipe>()(s.wire[g]) {
      assert PipeOk(s.wire[g]);
      NoBlankAcks(s.wire[g].sent);
    }
    TotalLeq(s.wire, InSent(AckFrame("")), Nought());
    NoughtTotal(s.wire);
  }

  /** Deliveries made for `m` are at most the frames for `m` that Recv returned. */
  lemma ItemsWereReceived(c: Config, s: State, m: string)
    requires FlowInv(c, s)
    ensures Total(s.direct.items, ForId(m)) <= Total(Inbound(s.wire), DeliverOf(m))
  {
    hide FlatMap, Total;
    var inbound := Inbound(s.wire);
    TotalFlatMap(s.direct.items, ArrivalOf(), ArrivalFor(m));
    forall i | 0 <= i < |s.direct.items|
      ensures ForId(m)(s.direct.items[i]) <= Each(ArrivalOf(), ArrivalFor(m))(s.direct.items[i])
    {
      TotalFew(s.direct.items[i].arrival, ArrivalFor(m));
    }
    TotalLeq(s.direct.items, ForId(m), Each(ArrivalOf(), ArrivalFor(m)));
    TotalFlatMap(inbound, Arrivals(Direct), ArrivalFor(m));
    forall i | 0 <= i < |inbound|
      ensures Each(Arrivals(Direct), ArrivalFor(m))(inbound[i]) <= DeliverOf(m)(inbound[i])
    {
      var arrived := Arrivals(Direct)(inbound[i]);
      TotalFew(Arrival(EnvelopeValue(None, "", None, None, "", 0, 0), ""), ArrivalFor(m));
      if arrived != [] {
        assert arrived == [arrived[0]];
        TotalFew(arrived[0], ArrivalFor(m));
      }
    }
    TotalLeq(inbound, Each(Arrivals(Direct), ArrivalFor(m)), DeliverOf(m));
  }

  /** Frames for `m` that Recv returned are at most the SendDeliver calls for it. */
  lemma ReceivedWereAsked(s: State, m: string)
    requires ShapeInv(s) && Asked(s)
    ensures Total(Inbound(s.wire), DeliverOf(m)) <= DeliverCalls(s, m)
  {
    hide FlatMap, Total;
    TotalFlatMap(s.wire, InboundOf(), DeliverOf(m));
    forall g | 0 <= g < |s.wire| ensures Each(InboundOf(), DeliverOf(m))(s.wire[g]) <= AskedFor(m)(s.wire[g]) {
      assert PipeOk(s.wire[g]);
      TotalPrefix(s.wire[g].inbound, s.wire[g].pushed, DeliverOf(m));
      assert Total(s.wire[g].pushed, DeliverOf(m)) <= Total(s.wire[g].asked, DeliverOf(m));
    }
    TotalLeq(s.wire, Each(InboundOf(), DeliverOf(m)), AskedFor(m));
  }

  /**
   Ack conservation across reconnects: for every id, over all sessions, the handler is told of at most as
   many acks as there are ack frames, those are at most the deliveries made for that id, and those at
   most the SendDeliver calls for it, although a delivery read on one stream may be acked on another.
   */
  lemma AckConservation(c: Config, s: State, m: string)
    requires Reachable(c, s)
    ensures AckCalls(s, m) <= OnWires(s.wire, AckFrame(m)) <= Total(s.direct.items, ForId(m)) <= DeliverCalls(s, m)
    ensures AckCalls(s, m) == AcksRead(s, m)
    ensures m != "" ==> OnWires(s.wire, AckFrame(m)) == Total(s.direct.items, AckedAs(m))
  {
    hide Can, Do, FlatMap;
    ReachableInv(c, s);
    CallsAreFrames(s, m);
    CallsAreReads(s, m);
    ItemsWereReceived(c, s, m);
    ReceivedWereAsked(s, m);
    if m == "" {
      BlankIsNeverAcked(s);
    } else {
      assert OnWires(s.wire, AckFrame(m)) == Total(s.direct.items, AckedAs(m));
      TotalLeq(s.direct.items, AckedAs(m), ForId(m));
    }
  }

  /**
   Ack promises: a promise runs at most once, puts at most one frame on at most one stream, and every
   caller gets its one settled result. A delivery can be acknowledged exactly when it has a message; a
   broadcast of this server never can, so every ack frame carries a message id and no broadcast id.
   */
  lemma AckPromises(c: Config, s: State, k: Kind, i: nat)
    requires Reachable(c, s) && i < |LaneOf(s, k).items|
    ensures var it := LaneOf(s, k).items[i];
            && it.runs <= 1
            && OnWires(s.wire, SentBy(Acker(k, i))) == (if it.acked then 1 else 0)
            && (it.acked ==> it.io == Over(true) && it.runs == 1 && it.arrival.ackId != "")
            && (it.arrival.ackId != "" <==> k.Direct? && it.arrival.envelope.message.Some?)
    ensures forall j, h :: 0 <= j < |s.answers| && 0 <= h < |s.answers|
              && s.answers[j].kind == s.answers[h].kind && s.answers[j].item == s.answers[h].item
              ==> s.answers[j].ok == s.answers[h].ok
    ensures forall g, j :: 0 <= g < |s.wire| && 0 <= j < |s.wire[g].sent| && s.wire[g].sent[j].req.Ack? ==>
              s.wire[g].sent[j].req.ack.Some?
              && s.wire[g].sent[j].req.ack.value.messageId != "" && s.wire[g].sent[j].req.ack.value.broadcastId == ""
  {
    hide Can, Do, LifeInv, LockInv, FlowInv, OpeningInv;
    ReachableInv(c, s);
    var it := LaneOf(s, k).items[i];
    assert ItemOk(k, it);
    assert OnWires(s.wire, SentBy(Acker(k, i))) == Claimed(s, Acker(k, i));
    forall j, h | 0 <= j < |s.answers| && 0 <= h < |s.answers|
      && s.answers[j].kind == s.answers[h].kind && s.answers[j].item == s.answers[h].item
      ensures s.answers[j].ok == s.answers[h].ok
    {
      assert AnswerOk(s, s.answers[j]) && AnswerOk(s, s.answers[h]);
    }
    forall g, j | 0 <= g < |s.wire| && 0 <= j < |s.wire[g].sent| ensures PacketOk(s.wire[g].sent[j]) {
      assert PipeOk(s.wire[g]);
    }
  }

  // ----- deliveries

  /** The arrivals of the deliveries numbered `ids`. */
  function Pick(items: seq<Item>, ids: seq<nat>): seq<Arrival>
    requires forall j :: 0 <= j < |ids| ==> ids[j] < |items|
  {
    seq(|ids|, j requires 0 <= j < |ids| => items[ids[j]].arrival)
  }

  lemma PickAll(items: seq<Item>)
    ensures Pick(items, Ids(|items|)) == Wrapped(items)
  {
    if items != [] {
      WrappedAt(items, 0);
      forall i | 0 <= i < |items| ensures Wrapped(items)[i] == items[i].arrival {
        WrappedAt(items, i);
      }
    }
  }

  /**
   Lossless ordered demultiplexing: what the subscriber took, then what is buffered, then what the
   consume loop holds, then what it dropped, is everything Recv returned for this channel, over all
   streams in order, each frame once. The buffer stays within capacity. At most one frame is ever
   dropped, by the last consume loop, and only after the run context is done.
   */
  lemma LosslessDemux(c: Config, s: State, k: Kind)
    requires Reachable(c, s)
    ensures var l := LaneOf(s, k);
            && (forall j :: 0 <= j < |l.got + l.queue + Hand(s.loops, k) + l.dropped| ==>
                  (l.got + l.queue + Hand(s.loops, k) + l.dropped)[j] == j < |l.items|)
            && Pick(l.items, l.got + l.queue + Hand(s.loops, k) + l.dropped) == FlatMap(Inbound(s.wire), Arrivals(k))
            && Wraps(k, Inbound(s.wire), Pick(l.items, l.got + l.queue + Hand(s.loops, k) + l.dropped))
            && |l.queue| <= Room(c, k)
    ensures |s.direct.dropped| + |s.fanned.dropped| <= 1
    ensures s.direct.dropped + s.fanned.dropped != [] ==>
              s.core.runDone && forall i :: 0 <= i < |s.loops| ==> s.loops[i].consume.Finished?
    ensures forall g :: 0 <= g < |s.wire| ==> s.wire[g].inbound <= s.wire[g].pushed
  {
    hide FlatMap;
    hide Can, Do, LockInv, CountInv, OpeningInv;
    ReachableInv(c, s);
    var l := LaneOf(s, k);
    assert Flow(k, l, Room(c, k), Hand(s.loops, k), Inbound(s.wire));
    PickAll(l.items);
    ArrivalsWrap(k, Inbound(s.wire));
    forall g | 0 <= g < |s.wire| ensures s.wire[g].inbound <= s.wire[g].pushed {
      assert PipeOk(s.wire[g]);
    }
  }

  // ----- generations

  /**
   The reconnect loop: connects and cleanups alternate, each cleanup closing the stream of the connect
   before it; at most one consume loop is live, on the newest stream; at most one heartbeat loop has a
   live context; and every error waiting in the channel comes from the latest connect's stream.
   */
  lemma Generations(c: Config, s: State)
    requires Reachable(c, s)
    ensures forall j :: 0 <= j < |s.core.history| ==> Paired(s.core.history, j)
    ensures |s.core.history| == 2 * |s.loops| - (if s.core.run.Serving? then 1 else 0)
    ensures forall i, j :: 0 <= i < |s.loops| && 0 <= j < |s.loops| ==>
              (!s.loops[i].consume.Finished? && !s.loops[j].consume.Finished? ==> i == j)
    ensures forall i :: 0 <= i < |s.loops| && !s.loops[i].consume.Finished? ==> s.loops[i].gen + 1 == |s.wire|
    ensures forall i, j :: 0 <= i < |s.loops| && 0 <= j < |s.loops| ==> (!CtxDone(s, i) && !CtxDone(s, j) ==> i == j)
    ensures s.core.run.Serving? && s.core.recvErr.Some? && s.core.recvErr.value != [] ==>
              s.core.stream == Some(s.core.recvErr.value[0])
  {
    hide LockInv, FlowInv, ShapeInv, CountInv, OpeningInv;
    hide Can, Do;
    ReachableInv(c, s);
    forall j | 0 <= j < |s.core.history| ensures Paired(s.core.history, j) {
      HistoryPairs(s.core.history, s.core.run.Serving?, s.loops, j);
    }
  }

  /** Event `j` is a connect when even, and when odd the cleanup of the stream connected just before. */
  predicate Paired(history: seq<Event>, j: nat)
    requires j < |history|
  {
    if j % 2 == 0 then history[j].Connected?
    else history[j - 1].Connected? && history[j] == CleanedUp(Some(history[j - 1].gen))
  }

  lemma HistoryPairs(history: seq<Event>, serving: bool, loops: seq<Loop>, j: nat)
    requires Alternates(history, serving, loops) && j < |history|
    ensures Paired(history, j)
  {
    var i := j / 2;
    assert history[2 * i] == Connected(loops[i].gen);
  }

  // ----- publishing

  function SentIngress(q: Packet): seq<EnvelopeValue> {
    IngressOf(q.req)
  }

  lemma {:induction false} ReadIngressIsPrefix(read: seq<Request>, sent: seq<Packet>)
    requires |read| <= |sent| && forall i :: 0 <= i < |read| ==> read[i] == sent[i].req
    ensures FlatMap(read, IngressOf) <= FlatMap(sent, SentIngress)
    decreases |sent|
  {
    if sent != [] {
      var n := |sent| - 1;
      if |read| == |sent| {
        ReadIngressSame(read, sent);
      } else {
        ReadIngressIsPrefix(read, sent[..n]);
      }
    }
  }

  lemma {:induction false} ReadIngressSame(read: seq<Request>, sent: seq<Packet>)
    requires |read| == |sent| && forall i :: 0 <= i < |read| ==> read[i] == sent[i].req
    ensures FlatMap(read, IngressOf) == FlatMap(sent, SentIngress)
  {
    if sent != [] {
      ReadIngressSame(read[..|sent| - 1], sent[..|sent| - 1]);
    }
  }

  /**
   Ingress is at most once and ordered: a publish call puts at most one frame on all streams together;
   each session's OnIngress sequence is a prefix of the ingress frames handed to that stream, in the
   order the lock was taken; and every envelope sent is normalised.
   */
  lemma IngressAtMostOnce(c: Config, s: State)
    requires Reachable(c, s)
    ensures forall i: nat :: OnWires(s.wire, SentBy(Publisher(i))) <= 1
    ensures forall i :: 0 <= i < |s.pubs| && !s.pubs[i].io.Over? ==> OnWires(s.wire, SentBy(Publisher(i))) == 0
    ensures forall g :: 0 <= g < |s.wire| ==>
              FlatMap(s.wire[g].session.calls, HandedIngress) <= FlatMap(s.wire[g].sent, SentIngress)
    ensures forall g, j :: 0 <= g < |s.wire| && 0 <= j < |s.wire[g].sent| && s.wire[g].sent[j].req.Ingress? ==>
              s.wire[g].sent[j].req.envelope.Some? && IsNormal(s.wire[g].sent[j].req.envelope.value)
  {
    hide FlatMap, Total;
    hide Can, Do, LifeInv, LockInv, FlowInv, OpeningInv;
    ReachableInv(c, s);
    forall i: nat ensures OnWires(s.wire, SentBy(Publisher(i))) == Claimed(s, Publisher(i)) {
    }
    forall i | 0 <= i < |s.pubs| && !s.pubs[i].io.Over? ensures OnWires(s.wire, SentBy(Publisher(i))) == 0 {
      assert PubOk(s.pubs[i]);
      assert OnWires(s.wire, SentBy(Publisher(i))) == Claimed(s, Publisher(i));
    }
    forall g | 0 <= g < |s.wire|
      ensures FlatMap(s.wire[g].session.calls, HandedIngress) <= FlatMap(s.wire[g].sent, SentIngress)
    {
      assert PipeOk(s.wire[g]);
      SessionHandsIngressInOrder(s.wire[g].session);
      ReadIngressIsPrefix(s.wire[g].session.read, s.wire[g].sent);
    }
    forall g, j | 0 <= g < |s.wire| && 0 <= j < |s.wire[g].sent| ensures PacketOk(s.wire[g].sent[j]) {
      assert PipeOk(s.wire[g]);
    }
  }

  /**
   Backpressure: the semaphore holds exactly the calls between acquire and release and never more than
   its capacity; a refused call holds nothing; and whether Send succeeded or failed, the release that
   follows finds a slot and gives one back.
   */
  lemma Backpressure(c: Config, s: State)
    requires Reachable(c, s)
    ensures c.slots.Some? ==> s.inflight == Total(s.pubs, Holds()) <= c.slots.value
    ensures s.emptyReleases == 0
    ensures forall i :: 0 <= i < |s.pubs| && (s.pubs[i].io.Own? || s.pubs[i].io.Busy?) ==> s.pubs[i].slot
    ensures forall i :: 0 <= i < |s.pubs| && s.fault.None? && CanPub(c, s, i, Refuse) ==>
              !s.pubs[i].slot && DoPub(c, s, i, Refuse).inflight == s.inflight
    ensures forall i :: 0 <= i < |s.pubs| && s.pubs[i].io.Over? && s.pubs[i].slot && c.slots.Some? ==>
              CanPub(c, s, i, Release) && DoPub(c, s, i, Release).inflight == s.inflight - 1
  {
    hide Can, Do, LifeInv, LockInv, FlowInv, OpeningInv;
    ReachableInv(c, s);
    forall i | 0 <= i < |s.pubs| ensures PubOk(s.pubs[i]) && (s.pubs[i].slot ==> 1 <= Total(s.pubs, Holds())) {
      TotalElement(s.pubs, i, Holds());
    }
  }
}
