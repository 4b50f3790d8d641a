/** From the wire to the subscriber: nothing lost, duplicated or reordered by the consume loops. */
module ProtocolFlow {
  import opened Common
  import opened Frames
  import opened Protocol
  import opened ProtocolLife

  function InboundOf(): Pipe -> seq<Response> {
    (p: Pipe) => p.inbound
  }

  /** Everything Recv has returned, over all streams in order. */
  function Inbound(wire: seq<Pipe>): seq<Response> {
    FlatMap(wire, InboundOf())
  }

  function ArrivalOf(): Item -> seq<Arrival> {
    (it: Item) => [it.arrival]
  }

  function Wrapped(items: seq<Item>): seq<Arrival> {
    FlatMap(items, ArrivalOf())
  }

  function Ids(n: nat): seq<nat> {
    seq(n, i => i)
  }

  /** The delivery of kind `k` the latest consume loop holds between Recv and the channel. */
  function Hand(loops: seq<Loop>, k: Kind): seq<nat> {
    if loops != [] && loops[|loops| - 1].consume.InHand? && loops[|loops| - 1].consume.kind == k
    then [loops[|loops| - 1].consume.item] else []
  }

  /** One channel: everything it was given is taken, buffered, in the hand or dropped, in the order received. */
  predicate Flow(k: Kind, l: Lane, room: nat, hand: seq<nat>, inbound: seq<Response>) {
    && l.got + l.queue + hand + l.dropped == Ids(|l.items|)
    && |l.queue| <= room
    && Wrapped(l.items) == FlatMap(inbound, Arrivals(k))
  }

  /** A frame is dropped only by the last consume loop, on cancellation, and nothing follows it. */
  predicate Drops(dropped: nat, k: Core, loops: seq<Loop>) {
    && dropped <= 1
    && (dropped > 0 ==>
          k.runDone && (k.run.Serving? || k.run.Exited?) && loops != [] && loops[|loops| - 1].consume.Finished?)
  }

  function Dropped(s: State): nat {
    |s.direct.dropped| + |s.fanned.dropped|
  }

  predicate FlowInv(c: Config, s: State) {
    && Flow(Direct, s.direct, c.deliverBuffer, Hand(s.loops, Direct), Inbound(s.wire))
    && Flow(Fanned, s.fanned, c.broadcastBuffer, Hand(s.loops, Fanned), Inbound(s.wire))
    && Drops(Dropped(s), s.core, s.loops)
  }

  /** What the flow needs of the reconnect loop: a consume loop still alive is the latest, on the newest stream. */
  predicate LiveIsLatest(s: State) {
    forall i :: 0 <= i < |s.loops| && !s.loops[i].consume.Finished? ==>
      && i == |s.loops| - 1
      && (s.loops[i].consume.InRecv? ==> s.loops[i].consume.gen + 1 == |s.wire|)
      && (s.core.run.Serving? || s.core.run.Exited?)
      && (CtxDone(s, i) ==> s.core.runDone)
  }

  lemma LifeGivesLatest(s: State)
    requires LifeInv(s)
    ensures LiveIsLatest(s)
  {
  }

  // ----- how the folds follow one update

  lemma {:induction false} InboundUpdate(wire: seq<Pipe>, g: nat, p: Pipe)
    requires g < |wire| && p.inbound == wire[g].inbound
    ensures Inbound(wire[g := p]) == Inbound(wire)
  {
    var n := |wire| - 1;
    if g == n {
      assert wire[g := p][..n] == wire[..n];
    } else {
      assert wire[g := p][..n] == wire[..n][g := p];
      InboundUpdate(wire[..n], g, p);
    }
  }

  lemma InboundNext(wire: seq<Pipe>, r: Response)
    requires wire != []
    ensures var g := |wire| - 1; Inbound(wire[g := wire[g].(inbound := wire[g].inbound + [r])]) == Inbound(wire) + [r]
  {
    var g := |wire| - 1;
    assert wire[g := wire[g].(inbound := wire[g].inbound + [r])][..g] == wire[..g];
  }

  lemma {:induction false} WrappedUpdate(items: seq<Item>, i: nat, it: Item)
    requires i < |items| && it.arrival == items[i].arrival
    ensures Wrapped(items[i := it]) == Wrapped(items)
  {
    var n := |items| - 1;
    if i == n {
      assert items[i := it][..n] == items[..n];
    } else {
      assert items[i := it][..n] == items[..n][i := it];
      WrappedUpdate(items[..n], i, it);
    }
  }

  lemma {:induction false} WrappedAt(items: seq<Item>, i: nat)
    requires i < |items|
    ensures |Wrapped(items)| == |items| && Wrapped(items)[i] == items[i].arrival
    decreases |items|
  {
    var n := |items| - 1;
    if n > 0 {
      WrappedAt(items[..n], if i < n then i else 0);
    } else {
      assert Wrapped(items[..0]) == [];
    }
  }

  // ----- one channel

  lemma ReceiveFlow(k: Kind, l: Lane, room: nat, inbound: seq<Response>, r: Response)
    requires Flow(k, l, room, [], inbound) && l.dropped == []
    ensures Arrivals(k)(r) == [] ==> Flow(k, l, room, [], inbound + [r])
    ensures Arrivals(k)(r) != [] ==>
              Flow(k, l.(items := l.items + [Item(Arrivals(k)(r)[0], Rest, 0, false)]), room, [|l.items|], inbound + [r])
  {
    hide FlatMap;
    FlatMapPush(inbound, r, Arrivals(k));
    if Arrivals(k)(r) != [] {
      var it := Item(Arrivals(k)(r)[0], Rest, 0, false);
      FlatMapPush(l.items, it, ArrivalOf());
      assert l.got + l.queue + [|l.items|] + [] == Ids(|l.items|) + [|l.items|] == Ids(|l.items| + 1);
    }
  }

  lemma PushFlow(k: Kind, l: Lane, room: nat, x: nat, inbound: seq<Response>)
    requires Flow(k, l, room, [x], inbound) && |l.queue| < room
    ensures Flow(k, l.(queue := l.queue + [x]), room, [], inbound)
  {
    hide FlatMap, Wrapped, Ids;
    assert l.got + (l.queue + [x]) + [] + l.dropped == l.got + l.queue + [x] + l.dropped;
  }

  lemma DropFlow(k: Kind, l: Lane, room: nat, x: nat, inbound: seq<Response>)
    requires Flow(k, l, room, [x], inbound) && l.dropped == []
    ensures Flow(k, l.(dropped := l.dropped + [x]), room, [], inbound)
  {
    hide FlatMap, Wrapped, Ids;
    assert l.got + l.queue + [] + (l.dropped + [x]) == l.got + l.queue + [x] + l.dropped;
  }

  lemma TakeFlow(k: Kind, l: Lane, room: nat, hand: seq<nat>, inbound: seq<Response>)
    requires Flow(k, l, room, hand, inbound) && l.queue != []
    ensures Flow(k, l.(queue := l.queue[1..], got := l.got + [l.queue[0]]), room, hand, inbound)
  {
    hide FlatMap, Wrapped, Ids;
    assert l.got + l.queue == (l.got + [l.queue[0]]) + l.queue[1..];
  }

  // ----- steps that leave the channels alone

  /** The channel is as it was, up to the progress of acknowledgements. */
  predicate SameLane(l: Lane, l': Lane) {
    && l'.got == l.got && l'.queue == l.queue && l'.dropped == l.dropped
    && |l'.items| == |l.items| && Wrapped(l'.items) == Wrapped(l.items)
  }

  lemma SteadyFlow(c: Config, s: State, t: State)
    requires FlowInv(c, s) && SameLane(s.direct, t.direct) && SameLane(s.fanned, t.fanned)
    requires Hand(t.loops, Direct) == Hand(s.loops, Direct) && Hand(t.loops, Fanned) == Hand(s.loops, Fanned)
    requires Inbound(t.wire) == Inbound(s.wire)
    requires Drops(Dropped(s), t.core, t.loops)
    ensures FlowInv(c, t)
  {
    hide Drops, Hand, Inbound, Wrapped, Ids, FlatMap;
  }

  /** Only the progress of senders, publishers and answers differ. */
  lemma UntouchedFlow(c: Config, s: State, t: State)
    requires FlowInv(c, s) && SameLane(s.direct, t.direct) && SameLane(s.fanned, t.fanned)
    requires t.core.run == s.core.run && t.core.runDone == s.core.runDone && Inbound(t.wire) == Inbound(s.wire)
    requires |t.loops| == |s.loops| && (s.loops != [] ==> t.loops[|s.loops| - 1].consume == s.loops[|s.loops| - 1].consume)
    ensures FlowInv(c, t)
  {
    hide Inbound, SameLane, Flow;
    SteadyFlow(c, s, t);
  }

  lemma ItemSameLane(l: Lane, i: nat, it: Item)
    requires i < |l.items| && it.arrival == l.items[i].arrival
    ensures SameLane(l, l.(items := l.items[i := it]))
  {
    WrappedUpdate(l.items, i, it);
  }

  /** The run loop opens streams and starts loops, but receives nothing. */
  lemma RunLeavesWire(c: Config, s: State, r: RunStep)
    requires CanRun(s, r)
    ensures Inbound(DoRun(c, s, r).wire) == Inbound(s.wire)
  {
    hide FlatMap;
    if r.OpenStream? {
      FlatMapPush(s.wire, NEW_PIPE, InboundOf());
    } else if r.RegisterSent? {
      var g := s.core.run.gen;
      InboundUpdate(s.wire, g, Transmit(s.wire, g, Packet(Connector, Register(Some(c.info))))[g]);
    }
  }

  lemma LaunchLeavesHands(c: Config, s: State)
    requires LiveIsLatest(s) && CanRun(s, Launch)
    ensures var t := DoRun(c, s, Launch); forall k :: Hand(t.loops, k) == [] == Hand(s.loops, k)
  {
  }

  /** A drop is kept in mind: the run loop can only go on to its exit. */
  lemma RunKeepsDrops(c: Config, s: State, r: RunStep)
    requires CanRun(s, r) && Drops(Dropped(s), s.core, s.loops)
    ensures Drops(Dropped(s), DoRun(c, s, r).core, DoRun(c, s, r).loops)
  {
  }

  lemma RunKeepsFlow(c: Config, s: State, r: RunStep)
    requires LiveIsLatest(s) && FlowInv(c, s) && CanRun(s, r)
    ensures FlowInv(c, DoRun(c, s, r))
  {
    hide Inbound, Flow, Drops, LiveIsLatest;
    var t := DoRun(c, s, r);
    RunKeepsDrops(c, s, r);
    RunLeavesWire(c, s, r);
    if r.Launch? {
      LaunchLeavesHands(c, s);
    } else {
      assert t.loops == s.loops;
    }
    hide Hand, Wrapped;
    SteadyFlow(c, s, t);
  }

  lemma SetItemSameLanes(s: State, k: Kind, i: nat, it: Item)
    requires i < |LaneOf(s, k).items| && it.arrival == LaneOf(s, k).items[i].arrival
    ensures var t := SetItem(s, k, i, it); SameLane(s.direct, t.direct) && SameLane(s.fanned, t.fanned)
  {
    ItemSameLane(LaneOf(s, k), i, it);
    hide Wrapped;
  }

  /** A sender's progress is its own record. */
  lemma IoSameLanes(s: State, x: Sender, io: Io)
    requires Exists(s, x)
    ensures var t := SetIo(s, x, io); SameLane(s.direct, t.direct) && SameLane(s.fanned, t.fanned)
  {
    hide SameLane;
    if x.Acker? {
      SetItemSameLanes(s, x.kind, x.item, LaneOf(s, x.kind).items[x.item].(io := io));
    } else {
      SameLaneSelf(s);
    }
  }

  lemma SameLaneSelf(s: State)
    ensures SameLane(s.direct, s.direct) && SameLane(s.fanned, s.fanned)
  {
  }

  lemma LockLeavesLanes(s: State, x: Sender, l: LockStep)
    requires CanLock(s, x, l)
    ensures var t := DoLock(s, x, l); SameLane(s.direct, t.direct) && SameLane(s.fanned, t.fanned)
  {
    hide SameLane;
    SameLaneSelf(s);
    match l
    case Acquire => IoSameLanes(s, x, Own);
    case Capture => IoSameLanes(s, x, if s.core.stream.Some? then Busy(s.core.stream.value) else Over(false));
    case Finish(ok, _) =>
      if x.Acker? {
        SetItemSameLanes(s, x.kind, x.item, LaneOf(s, x.kind).items[x.item].(io := Over(ok), acked := ok));
      }
  }

  lemma LockLeavesStreams(s: State, x: Sender, l: LockStep)
    requires CanLock(s, x, l)
    ensures var t := DoLock(s, x, l);
            && Inbound(t.wire) == Inbound(s.wire) && t.core == s.core && |t.loops| == |s.loops|
            && forall i {:trigger t.loops[i].consume} :: 0 <= i < |s.loops| ==> t.loops[i].consume == s.loops[i].consume
  {
    hide FlatMap;
    if l.Finish? && l.ok {
      var g := IoOf(s, x).gen;
      InboundUpdate(s.wire, g, Transmit(s.wire, g, Packet(x, RequestOf(s, x, l.nonce)))[g]);
    }
    hide Inbound;
  }

  lemma LockKeepsFlow(c: Config, s: State, x: Sender, l: LockStep)
    requires FlowInv(c, s) && CanLock(s, x, l)
    ensures FlowInv(c, DoLock(s, x, l))
  {
    LockLeavesLanes(s, x, l);
    LockLeavesStreams(s, x, l);
    hide DoLock, FlowInv, SameLane, Inbound;
    UntouchedFlow(c, s, DoLock(s, x, l));
  }

  lemma AckKeepsFlow(c: Config, s: State, k: Kind, i: nat, w: AckStep)
    requires FlowInv(c, s) && CanAck(s, k, i, w)
    ensures FlowInv(c, DoAck(s, k, i, w))
  {
    hide FlowInv, Inbound, Wrapped;
    var t := DoAck(s, k, i, w);
    ItemSameLane(LaneOf(s, k), i, LaneOf(t, k).items[i]);
    UntouchedFlow(c, s, t);
  }

  lemma ServerKeepsFlow(c: Config, s: State, g: nat, v: ServerStep)
    requires FlowInv(c, s) && CanServe(s, g, v)
    ensures FlowInv(c, s.(wire := s.wire[g := Served(s.wire[g], v)]))
  {
    InboundUpdate(s.wire, g, Served(s.wire[g], v));
    hide FlowInv, Inbound, Wrapped, Served;
    UntouchedFlow(c, s, s.(wire := s.wire[g := Served(s.wire[g], v)]));
  }

  // ----- steps of the consume loop

  /** The loop that moves is the latest, nothing has been dropped, and the hands are what it holds. */
  lemma ReaderHolds(c: Config, s: State, i: nat)
    requires LiveIsLatest(s) && FlowInv(c, s) && i < |s.loops| && !s.loops[i].consume.Finished?
    ensures i == |s.loops| - 1 && Dropped(s) == 0 && s.direct.dropped == s.fanned.dropped == []
    ensures var p := s.loops[i].consume;
            forall k {:trigger Hand(s.loops, k)} :: Hand(s.loops, k) == if p.InHand? && p.kind == k then [p.item] else []
    ensures s.core.run.Serving? || s.core.run.Exited?
    ensures s.loops[i].consume.InRecv? ==> s.loops[i].consume.gen + 1 == |s.wire|
    ensures CtxDone(s, i) ==> s.core.runDone
  {
    hide Flow, Inbound;
  }

  lemma RecvEffects(c: Config, s: State, i: nat)
    requires CanRead(c, s, i, Recv) && i == |s.loops| - 1 && s.loops[i].consume.gen + 1 == |s.wire|
    ensures var g := |s.wire| - 1;
            var r := s.wire[g].pushed[|s.wire[g].inbound|];
            var t := DoRead(c, s, i, Recv);
            && t.wire == s.wire[g := s.wire[g].(inbound := s.wire[g].inbound + [r])]
            && t.core == s.core && t.loops != [] && !t.loops[|t.loops| - 1].consume.Finished?
            && forall k {:trigger LaneOf(t, k)} {:trigger Hand(t.loops, k)} ::
                 if Arrivals(k)(r) == [] then LaneOf(t, k) == LaneOf(s, k) && Hand(t.loops, k) == []
                 else && LaneOf(t, k) == LaneOf(s, k).(
                           items := LaneOf(s, k).items + [Item(Arrivals(k)(r)[0], Rest, 0, false)])
                      && Hand(t.loops, k) == [|LaneOf(s, k).items|]
  {
  }

  lemma RecvKeepsFlow(c: Config, s: State, i: nat)
    requires LiveIsLatest(s) && FlowInv(c, s) && CanRead(c, s, i, Recv)
    ensures FlowInv(c, DoRead(c, s, i, Recv))
  {
    ReaderHolds(c, s, i);
    var g := |s.wire| - 1;
    var r := s.wire[g].pushed[|s.wire[g].inbound|];
    RecvEffects(c, s, i);
    InboundNext(s.wire, r);
    hide DoRead, CanRead, Flow, Inbound, Hand, Arrivals;
    ReceiveFlow(Direct, s.direct, c.deliverBuffer, Inbound(s.wire), r);
    ReceiveFlow(Fanned, s.fanned, c.broadcastBuffer, Inbound(s.wire), r);
    var t := DoRead(c, s, i, Recv);
    assert LaneOf(t, Direct) == t.direct && LaneOf(t, Fanned) == t.fanned;
    assert LaneOf(s, Direct) == s.direct && LaneOf(s, Fanned) == s.fanned;
  }

  lemma PushEffects(c: Config, s: State, i: nat, r: ReaderStep)
    requires CanRead(c, s, i, r) && (r.Push? || r.Drop?) && i == |s.loops| - 1
    requires r.Push? ==> !s.core.closed
    ensures var k, x := s.loops[i].consume.kind, s.loops[i].consume.item;
            var t := DoRead(c, s, i, r);
            var l := LaneOf(s, k);
            && t.wire == s.wire && t.core == s.core && |t.loops| == |s.loops|
            && t.loops[i].consume == (if r.Push? then AtTop else Finished)
            && LaneOf(t, k) == (if r.Push? then l.(queue := l.queue + [x]) else l.(dropped := l.dropped + [x]))
            && (forall h :: h != k ==> LaneOf(t, h) == LaneOf(s, h))
            && Hand(t.loops, Direct) == Hand(t.loops, Fanned) == []
  {
  }

  lemma PushKeepsFlow(c: Config, s: State, i: nat, r: ReaderStep)
    requires LiveIsLatest(s) && FlowInv(c, s) && CanRead(c, s, i, r) && (r.Push? || r.Drop?)
    requires r.Push? ==> !s.core.closed
    ensures FlowInv(c, DoRead(c, s, i, r))
  {
    ReaderHolds(c, s, i);
    PushEffects(c, s, i, r);
    var k, x := s.loops[i].consume.kind, s.loops[i].consume.item;
    var t := DoRead(c, s, i, r);
    assert LaneOf(t, Direct) == t.direct && LaneOf(t, Fanned) == t.fanned;
    assert LaneOf(s, Direct) == s.direct && LaneOf(s, Fanned) == s.fanned;
    hide DoRead, Flow, Inbound, Hand;
    if r.Push? {
      PushFlow(k, LaneOf(s, k), Room(c, k), x, Inbound(s.wire));
    } else {
      DropFlow(k, LaneOf(s, k), Room(c, k), x, Inbound(s.wire));
    }
    assert Direct != Fanned;
  }

  lemma PlainReadKeepsFlow(c: Config, s: State, i: nat, r: ReaderStep)
    requires LiveIsLatest(s) && FlowInv(c, s) && CanRead(c, s, i, r)
    requires r.EnterRecv? || r.RecvFails? || r.Report? || (r.Push? && s.core.closed)
    ensures FlowInv(c, DoRead(c, s, i, r))
  {
    ReaderHolds(c, s, i);
    hide Flow, Inbound, Wrapped;
    var t := DoRead(c, s, i, r);
    assert t.direct == s.direct && t.fanned == s.fanned && t.wire == s.wire;
    SteadyFlow(c, s, t);
  }

  lemma ReaderKeepsFlow(c: Config, s: State, i: nat, r: ReaderStep)
    requires LiveIsLatest(s) && FlowInv(c, s) && CanRead(c, s, i, r)
    ensures FlowInv(c, DoRead(c, s, i, r))
  {
    hide FlowInv, LiveIsLatest, DoRead, CanRead;
    if r.Recv? {
      RecvKeepsFlow(c, s, i);
    } else if r.Drop? || (r.Push? && !s.core.closed) {
      PushKeepsFlow(c, s, i, r);
    } else {
      PlainReadKeepsFlow(c, s, i, r);
    }
  }

  lemma TakeKeepsFlow(c: Config, s: State, k: Kind)
    requires FlowInv(c, s) && Can(c, s, Take(k))
    ensures FlowInv(c, Do(c, s, Take(k)))
  {
    hide Flow, Inbound, Hand;
    TakeFlow(k, LaneOf(s, k), Room(c, k), Hand(s.loops, k), Inbound(s.wire));
  }

  lemma HeartKeepsFlow(c: Config, s: State, i: nat, h: HeartStep)
    requires FlowInv(c, s) && CanHeart(s, i, h)
    ensures FlowInv(c, DoHeart(s, i, h))
  {
    hide FlowInv, Inbound, Wrapped;
    UntouchedFlow(c, s, DoHeart(s, i, h));
  }

  lemma CallKeepsFlow(c: Config, s: State, a: Action)
    requires FlowInv(c, s) && Can(c, s, a) && (a.PubCall? || a.Pubs?)
    ensures FlowInv(c, Do(c, s, a))
  {
    hide FlowInv, Inbound, Wrapped;
    UntouchedFlow(c, s, Do(c, s, a));
  }

  lemma FlowKept(c: Config, s: State, a: Action)
    requires LifeInv(s) && FlowInv(c, s) && Can(c, s, a)
    ensures FlowInv(c, Do(c, s, a))
  {
    hide LifeInv, LiveIsLatest, FlowInv;
    LifeGivesLatest(s);
    match a
    case Run(r) => RunKeepsFlow(c, s, r);
    case Reader(i, r) => ReaderKeepsFlow(c, s, i, r);
    case Locking(x, l) => LockKeepsFlow(c, s, x, l);
    case Take(k) => TakeKeepsFlow(c, s, k);
    case AckCall(k, i, w) => AckKeepsFlow(c, s, k, i, w);
    case Server(g, v) => ServerKeepsFlow(c, s, g, v);
    case Heart(i, h) => HeartKeepsFlow(c, s, i, h);
    case PubCall(_) => CallKeepsFlow(c, s, a);
    case Pubs(_, _) => CallKeepsFlow(c, s, a);
  }
}
