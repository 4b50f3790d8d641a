/**
 The bridge as a transition system: one client (the reconnect loop, one consume loop and one heartbeat
 loop per successful connect, any number of publishers and ackers), the server's session loops, and a
 pair of FIFO wires per stream that can be cut anywhere. A step is one access to shared state.
 */
module Protocol {
  import opened Common
  import opened Envelopes
  import opened Frames
  import opened Sessions

  type Capacity = n: nat | 0 < n witness 1

  /** `slots` is the capacity of the in-flight semaphore when backpressure is on. */
  datatype Config = Config(info: RegisterInfo, deliverBuffer: Capacity, broadcastBuffer: Capacity, slots: Option<Capacity>)

  /** The two subscriber channels: deliveries and broadcasts. */
  datatype Kind = Direct | Fanned

  datatype Sender = Connector | Publisher(call: nat) | Beater(loop: nat) | Acker(kind: Kind, item: nat)

  /** A sender's way through the send lock: wants it, owns it, is inside Send on a stream, is done. */
  datatype Io = Rest | Want | Own | Busy(gen: nat) | Over(ok: bool)

  /** A request on the wire, with the sender that put it there. */
  datatype Packet = Packet(sender: Sender, req: Request)

  /**
   One stream: what the client sent and the session reading it; what the server was asked to send,
   what the transport took, and what the client's Recv has returned of it.
   */
  datatype Pipe = Pipe(
    sent: seq<Packet>,
    session: Session,
    asked: seq<Response>,
    pushed: seq<Response>,
    inbound: seq<Response>)

  const NEW_PIPE := Pipe([], NEW_SESSION, [], [], [])

  /** What the consume loop wraps: the envelope and the id its Ack will carry. */
  datatype Arrival = Arrival(envelope: EnvelopeValue, ackId: string)

  /** A Delivery: its ack promise has been started `runs` times, and put a frame on a wire if `acked`. */
  datatype Item = Item(arrival: Arrival, io: Io, runs: nat, acked: bool)

  /** All deliveries made, by creation; those buffered in the channel, taken by the subscriber, dropped. */
  datatype Lane = Lane(items: seq<Item>, queue: seq<nat>, got: seq<nat>, dropped: seq<nat>)

  /** One PublishIngress call that passed the started check; `slot` from acquire to release. */
  datatype Pub = Pub(envelope: EnvelopeValue, io: Io, slot: bool, ingressed: bool)

  datatype Consume = AtTop | InRecv(gen: nat) | InHand(kind: Kind, item: nat) | Failing(gen: nat) | Finished

  /** The two goroutines of one successful connect: the heartbeat loop and the consume loop. */
  datatype Loop = Loop(gen: nat, ctx: nat, beat: Io, alive: bool, consume: Consume)

  datatype RunPc = Idle | Dialing | Registering(gen: nat) | Launching(gen: nat) | Serving | Backoff | Exited

  /** A cleanup records the stream it found. */
  datatype Event = Connected(gen: nat) | CleanedUp(stream: Option<nat>)

  /** A crash of the program: a call through a nil stream, or a send on a closed channel. */
  datatype Fault = SendOnNil(who: Sender) | RecvOnNil(loop: nat) | PushOnClosed(loop: nat)

  /** The client's own fields. Streams and connect contexts are numbered in the order they are made. */
  datatype Core = Core(
    run: RunPc,
    runDone: bool,
    closed: bool,
    started: bool,
    stream: Option<nat>,
    cancel: Option<nat>,
    ctxs: nat,
    cancelled: set<nat>,
    recvErr: Option<seq<nat>>,
    wg: int,
    history: seq<Event>)

  datatype Answer = Answer(kind: Kind, item: nat, ok: bool)

  datatype State = State(
    core: Core,
    loops: seq<Loop>,
    mu: Option<Sender>,
    pubs: seq<Pub>,
    inflight: nat,
    emptyReleases: nat,
    direct: Lane,
    fanned: Lane,
    wire: seq<Pipe>,
    answers: seq<Answer>,
    fault: Option<Fault>)

  const EMPTY_LANE := Lane([], [], [], [])

  const INIT := State(Core(Idle, false, false, false, None, None, 0, {}, None, 0, []),
                      [], None, [], 0, 0, EMPTY_LANE, EMPTY_LANE, [], [], None)

  /** What a handler may ask its session to send. */
  datatype PushFrame =
    | PushDeliver(envelope: EnvelopeValue, id: Uuid, t: Instant, u: Instant)
    | PushBroadcast(envelope: EnvelopeValue, id: Uuid, t: Instant, u: Instant)
    | PushHeartbeat(nonce: string)

  function FrameOf(p: PushFrame): Response {
    match p
    case PushDeliver(e, id, t, u) => Deliver(Some(Normalized(e, id, t, u)))
    case PushBroadcast(e, id, t, u) => Broadcast(Some(Normalized(e, id, t, u)), "")
    case PushHeartbeat(nonce) => Pong(nonce)
  }

  /** The reconnect loop, connect, and the two ways the caller ends it. */
  datatype RunStep =
    | Start | CancelParent | Close
    | DialFails | OpenStream | RegisterFails | RegisterSent | Launch
    | BackoffElapses | BackoffCancelled | StopOnCancel | StopOnError

  datatype HeartStep = Tick | Stop

  datatype ReaderStep = EnterRecv | Recv | RecvFails | Report | Push | Drop

  datatype AckStep = Begin(ctxDone: bool) | Return

  datatype PubStep = Admit(id: Uuid, t: Instant, u: Instant) | Refuse | Release

  /** The send lock, shared by publishers, heartbeats and acks. */
  datatype LockStep = Acquire | Capture | Finish(ok: bool, nonce: string)

  datatype ServerStep = ServeNext(ok: bool) | ServeHangup | Send(push: PushFrame, up: bool)

  datatype Action =
    | Run(r: RunStep)
    | Heart(loop: nat, h: HeartStep)
    | Reader(loop: nat, c: ReaderStep)
    | Take(kind: Kind)
    | AckCall(kind: Kind, item: nat, a: AckStep)
    | PubCall(envelope: EnvelopeValue)
    | Pubs(call: nat, p: PubStep)
    | Locking(who: Sender, l: LockStep)
    | Server(gen: nat, v: ServerStep)

  // ----- access by kind and by sender

  function LaneOf(s: State, k: Kind): Lane {
    if k.Direct? then s.direct else s.fanned
  }

  function SetLane(s: State, k: Kind, l: Lane): State {
    if k.Direct? then s.(direct := l) else s.(fanned := l)
  }

  function Room(c: Config, k: Kind): Capacity {
    if k.Direct? then c.deliverBuffer else c.broadcastBuffer
  }

  predicate Exists(s: State, x: Sender) {
    match x
    case Connector => false
    case Publisher(i) => i < |s.pubs|
    case Beater(i) => i < |s.loops|
    case Acker(k, i) => i < |LaneOf(s, k).items|
  }

  function IoOf(s: State, x: Sender): Io {
    if !Exists(s, x) then Rest
    else match x
         case Publisher(i) => s.pubs[i].io
         case Beater(i) => s.loops[i].beat
         case Acker(k, i) => LaneOf(s, k).items[i].io
  }

  function SetItem(s: State, k: Kind, i: nat, it: Item): State
    requires i < |LaneOf(s, k).items|
  {
    SetLane(s, k, LaneOf(s, k).(items := LaneOf(s, k).items[i := it]))
  }

  function SetIo(s: State, x: Sender, io: Io): State
    requires Exists(s, x)
  {
    match x
    case Publisher(i) => s.(pubs := s.pubs[i := s.pubs[i].(io := io)])
    case Beater(i) => s.(loops := s.loops[i := s.loops[i].(beat := io)])
    case Acker(k, i) => SetItem(s, k, i, LaneOf(s, k).items[i].(io := io))
  }

  function SetConsume(s: State, i: nat, p: Consume): State
    requires i < |s.loops|
  {
    s.(loops := s.loops[i := s.loops[i].(consume := p)])
  }

  /** The connect context of a loop is done: its own cancel was called, or the run context is done. */
  predicate CtxDone(s: State, i: nat)
    requires i < |s.loops|
  {
    s.core.runDone || s.loops[i].ctx in s.core.cancelled
  }

  /** What one received frame makes the consume loop wrap for a channel. */
  function Arrivals(k: Kind): Response -> seq<Arrival> {
    (r: Response) =>
      match r
      case Deliver(e) => if k.Direct? && e.Some? then [Arrival(e.value, RequestId(e.value))] else []
      case Broadcast(e, id) => if k.Fanned? && e.Some? then [Arrival(e.value, id)] else []
      case _ => []
  }

  /** The envelope a frame brings for a channel: of a non-nil Deliver, or of a non-nil Broadcast. */
  function Enclosed(k: Kind): Response -> seq<EnvelopeValue> {
    (r: Response) =>
      if (if k.Direct? then r.Deliver? else r.Broadcast?) && r.envelope.Some? then [r.envelope.value] else []
  }

  /** The broadcast id of a non-nil Broadcast. */
  function BroadcastIdOf(): Response -> seq<string> {
    (r: Response) => if r.Broadcast? && r.envelope.Some? then [r.broadcastId] else []
  }

  function EnvelopeIn(): Arrival -> seq<EnvelopeValue> {
    (a: Arrival) => [a.envelope]
  }

  function AckIdIn(): Arrival -> seq<string> {
    (a: Arrival) => [a.ackId]
  }

  /**
   A channel is given the envelopes that the frames bring for it, each once and in order: a delivery to be
   acknowledged under its own request id, a broadcast under the id in its frame.
   */
  predicate Wraps(k: Kind, frames: seq<Response>, arrivals: seq<Arrival>) {
    && FlatMap(arrivals, EnvelopeIn()) == FlatMap(frames, Enclosed(k))
    && (k.Direct? ==> forall i :: 0 <= i < |arrivals| ==> arrivals[i].ackId == RequestId(arrivals[i].envelope))
    && (k.Fanned? ==> FlatMap(arrivals, AckIdIn()) == FlatMap(frames, BroadcastIdOf()))
  }

  lemma ArrivalWraps(k: Kind, r: Response)
    ensures FlatMap(Arrivals(k)(r), EnvelopeIn()) == Enclosed(k)(r)
    ensures k.Fanned? ==> FlatMap(Arrivals(k)(r), AckIdIn()) == BroadcastIdOf()(r)
  {
    hide FlatMap;
    var a := if Arrivals(k)(r) == [] then Arrival(EnvelopeValue(None, "", None, None, "", 0, 0), "") else Arrivals(k)(r)[0];
    assert Arrivals(k)(r) == [] || Arrivals(k)(r) == [a];
    FlatMapFew(a, EnvelopeIn());
    FlatMapFew(a, AckIdIn());
  }

  lemma {:induction false} DirectAckIds(frames: seq<Response>)
    ensures forall a :: a in FlatMap(frames, Arrivals(Direct)) ==> a.ackId == RequestId(a.envelope)
  {
    if frames != [] {
      DirectAckIds(frames[..|frames| - 1]);
    }
  }

  lemma ArrivalsWrap(k: Kind, frames: seq<Response>)
    ensures Wraps(k, frames, FlatMap(frames, Arrivals(k)))
  {
    DirectAckIds(frames);
    forall r: Response
      ensures FlatMap(Arrivals(k)(r), EnvelopeIn()) == Enclosed(k)(r)
      ensures k.Fanned? ==> FlatMap(Arrivals(k)(r), AckIdIn()) == BroadcastIdOf()(r)
    {
      ArrivalWraps(k, r);
    }
    hide FlatMap, Arrivals, Enclosed, BroadcastIdOf;
    FlatMapTwice(frames, Arrivals(k), EnvelopeIn(), Enclosed(k));
    if k.Fanned? {
      FlatMapTwice(frames, Arrivals(k), AckIdIn(), BroadcastIdOf());
    }
  }

  function RequestOf(s: State, x: Sender, nonce: string): Request
    requires Exists(s, x)
  {
    match x
    case Publisher(i) => Ingress(Some(s.pubs[i].envelope))
    case Beater(_) => Heartbeat(Some(nonce))
    case Acker(Direct, i) => Ack(Some(AckBody(s.direct.items[i].arrival.ackId, "")))
    case Acker(Fanned, i) => Ack(Some(AckBody("", s.fanned.items[i].arrival.ackId)))
  }

  // ----- steps

  predicate CanRun(s: State, r: RunStep) {
    match r
    case Start => s.core.run.Idle?
    case CancelParent => true
    case Close => !s.core.closed
    case DialFails => s.core.run.Dialing?
    case OpenStream => s.core.run.Dialing?
    case RegisterFails => s.core.run.Registering?
    case RegisterSent => s.core.run.Registering? && s.core.run.gen < |s.wire|
    case Launch => s.core.run.Launching?
    case BackoffElapses => s.core.run.Backoff?
    case BackoffCancelled => s.core.run.Backoff? && s.core.runDone
    case StopOnCancel => s.core.run.Serving? && s.core.runDone
    case StopOnError => s.core.run.Serving? && s.core.recvErr.Some? && s.core.recvErr.value != []
  }

  function DoRun(c: Config, s: State, r: RunStep): State
    requires CanRun(s, r)
  {
    match r
    case Start => s.(core := s.core.(run := Dialing, wg := s.core.wg + 1))
    case CancelParent => s.(core := s.core.(runDone := true))
    case Close => s.(core := Closed(s.core))
    case DialFails => s.(core := Dialed(s.core).(run := Backoff))
    case OpenStream =>
      s.(core := Dialed(s.core).(run := Registering(|s.wire|), stream := Some(|s.wire|)), wire := s.wire + [NEW_PIPE])
    case RegisterFails => s.(core := s.core.(run := Backoff))
    case RegisterSent =>
      s.(core := s.core.(run := Launching(s.core.run.gen)),
         wire := Transmit(s.wire, s.core.run.gen, Packet(Connector, Register(Some(c.info)))))
    case Launch => DoLaunch(s)
    case BackoffElapses => s.(core := s.core.(run := Dialing))
    case BackoffCancelled => s.(core := s.core.(run := Exited, wg := s.core.wg - 1))
    case StopOnCancel => s.(core := Cleanup(s.core).(run := Exited, wg := s.core.wg - 1))
    case StopOnError =>
      var core := Cleanup(s.core.(recvErr := Some(s.core.recvErr.value[1..])));
      s.(core := if s.core.runDone then core.(run := Exited, wg := s.core.wg - 1) else core.(run := Dialing))
  }

  predicate CanHeart(s: State, i: nat, h: HeartStep) {
    && i < |s.loops| && s.loops[i].alive && s.loops[i].beat.Rest?
    && (h.Tick? ==> s.core.started)
    && (h.Stop? ==> CtxDone(s, i))
  }

  function DoHeart(s: State, i: nat, h: HeartStep): State
    requires CanHeart(s, i, h)
  {
    match h
    case Tick => SetIo(s, Beater(i), Want)
    case Stop => s.(loops := s.loops[i := s.loops[i].(alive := false)], core := s.core.(wg := s.core.wg - 1))
  }

  predicate CanRead(c: Config, s: State, i: nat, r: ReaderStep) {
    && i < |s.loops|
    && var p := s.loops[i].consume;
       match r
       case EnterRecv => p.AtTop?
       case Recv => p.InRecv? && p.gen < |s.wire| && |s.wire[p.gen].inbound| < |s.wire[p.gen].pushed|
       case RecvFails => p.InRecv?
       case Report => p.Failing? && (s.core.recvErr.Some? ==> |s.core.recvErr.value| < 1)
       case Push => p.InHand? && (s.core.closed || |LaneOf(s, p.kind).queue| < Room(c, p.kind))
       case Drop => p.InHand? && CtxDone(s, i)
  }

  function DoRead(c: Config, s: State, i: nat, r: ReaderStep): State
    requires CanRead(c, s, i, r)
  {
    match r
    case EnterRecv =>
      if s.core.stream.None? then s.(fault := Some(RecvOnNil(i)))
      else SetConsume(s, i, InRecv(s.core.stream.value))
    case Recv => DoRecv(s, i)
    case RecvFails => SetConsume(s, i, Failing(s.loops[i].consume.gen))
    case Report =>
      var t := SetConsume(s, i, Finished);
      if s.core.recvErr.None? then t
      else t.(core := s.core.(recvErr := Some(s.core.recvErr.value + [s.loops[i].consume.gen])))
    case Push => DoPush(s, i)
    case Drop =>
      var k := s.loops[i].consume.kind;
      SetConsume(SetLane(s, k, LaneOf(s, k).(dropped := LaneOf(s, k).dropped + [s.loops[i].consume.item])), i, Finished)
  }

  predicate CanAck(s: State, k: Kind, i: nat, a: AckStep) {
    && i < |LaneOf(s, k).items|
    && match a
       case Begin(_) => i in LaneOf(s, k).got && LaneOf(s, k).items[i].io.Rest?
       case Return => LaneOf(s, k).items[i].io.Over?
  }

  function DoAck(s: State, k: Kind, i: nat, a: AckStep): State
    requires CanAck(s, k, i, a)
  {
    match a
    case Begin(ctxDone) => DoAckBegin(s, k, i, ctxDone)
    case Return => s.(answers := s.answers + [Answer(k, i, LaneOf(s, k).items[i].io.ok)])
  }

  predicate CanPub(c: Config, s: State, i: nat, p: PubStep) {
    && i < |s.pubs|
    && match p
       case Admit(_, _, _) => s.pubs[i].io.Rest? && (c.slots.Some? ==> s.inflight < c.slots.value)
       case Refuse => s.pubs[i].io.Rest? && c.slots.Some?
       case Release => s.pubs[i].io.Over? && s.pubs[i].slot
  }

  function DoPub(c: Config, s: State, i: nat, p: PubStep): State
    requires CanPub(c, s, i, p)
  {
    match p
    case Admit(id, t, u) =>
      s.(pubs := s.pubs[i := s.pubs[i].(io := Want, slot := true, envelope := Normalized(s.pubs[i].envelope, id, t, u))],
         inflight := if c.slots.Some? then s.inflight + 1 else s.inflight)
    case Refuse => SetIo(s, Publisher(i), Over(false))
    case Release => DoRelease(c, s, i)
  }

  predicate CanLock(s: State, x: Sender, l: LockStep) {
    match l
    case Acquire => IoOf(s, x).Want? && s.mu.None?
    case Capture => IoOf(s, x).Own?
    case Finish(_, _) => IoOf(s, x).Busy? && IoOf(s, x).gen < |s.wire|
  }

  function DoLock(s: State, x: Sender, l: LockStep): State
    requires CanLock(s, x, l)
  {
    match l
    case Acquire => SetIo(s, x, Own).(mu := Some(x))
    case Capture => DoCapture(s, x)
    case Finish(ok, nonce) => DoFinish(s, x, ok, nonce)
  }

  predicate CanServe(s: State, g: nat, v: ServerStep) {
    && g < |s.wire|
    && match v
       case ServeNext(_) => !s.wire[g].session.phase.Ended? && |s.wire[g].session.read| < |s.wire[g].sent|
       case ServeHangup => !s.wire[g].session.phase.Ended?
       case Send(_, _) => s.wire[g].session.calls != []
  }

  function Served(p: Pipe, v: ServerStep): Pipe
    requires v.ServeNext? ==> |p.session.read| < |p.sent|
  {
    match v
    case ServeNext(ok) => p.(session := Serve(p.session, p.sent[|p.session.read|].req, ok))
    case ServeHangup => p.(session := Hangup(p.session))
    case Send(push, up) =>
      var r := FrameOf(push);
      p.(asked := p.asked + [r], pushed := if up then p.pushed + [r] else p.pushed)
  }

  predicate Can(c: Config, s: State, a: Action) {
    && s.fault.None?
    && match a
       case Run(r) => CanRun(s, r)
       case Heart(i, h) => CanHeart(s, i, h)
       case Reader(i, r) => CanRead(c, s, i, r)
       case Take(k) => LaneOf(s, k).queue != []
       case AckCall(k, i, w) => CanAck(s, k, i, w)
       case PubCall(_) => s.core.started
       case Pubs(i, p) => CanPub(c, s, i, p)
       case Locking(x, l) => CanLock(s, x, l)
       case Server(g, v) => CanServe(s, g, v)
  }

  function Do(c: Config, s: State, a: Action): State
    requires Can(c, s, a)
  {
    match a
    case Run(r) => DoRun(c, s, r)
    case Heart(i, h) => DoHeart(s, i, h)
    case Reader(i, r) => DoRead(c, s, i, r)
    case Take(k) =>
      var l := LaneOf(s, k);
      SetLane(s, k, l.(queue := l.queue[1..], got := l.got + [l.queue[0]]))
    case AckCall(k, i, w) => DoAck(s, k, i, w)
    case PubCall(e) => s.(pubs := s.pubs + [Pub(e, Rest, false, false)])
    case Pubs(i, p) => DoPub(c, s, i, p)
    case Locking(x, l) => DoLock(s, x, l)
    case Server(g, v) => s.(wire := s.wire[g := Served(s.wire[g], v)])
  }

  function Transmit(wire: seq<Pipe>, g: nat, p: Packet): seq<Pipe>
    requires g < |wire|
  {
    wire[g := wire[g].(sent := wire[g].sent + [p])]
  }

  /** Every attempt to connect makes a new context and keeps its cancel function. */
  function Dialed(k: Core): Core {
    k.(cancel := Some(k.ctxs), ctxs := k.ctxs + 1)
  }

  function Launched(k: Core, g: nat): Core {
    k.(run := Serving, started := true, recvErr := Some([]), wg := k.wg + 1, history := k.history + [Connected(g)])
  }

  /** Close cancels the run context if there is one, and the latest connect context. */
  function Closed(k: Core): Core {
    k.(closed := true,
       runDone := k.runDone || !k.run.Idle?,
       cancelled := if k.cancel.Some? then k.cancelled + {k.cancel.value} else k.cancelled)
  }

  function Cleanup(k: Core): Core {
    k.(cancelled := if k.cancel.Some? then k.cancelled + {k.cancel.value} else k.cancelled,
       cancel := None,
       stream := None,
       history := k.history + [CleanedUp(k.stream)])
  }

  /** The end of a successful connect: the stream is marked started and its two loops begin. */
  function DoLaunch(s: State): State
    requires s.core.run.Launching?
  {
    var g := s.core.run.gen;
    s.(core := Launched(s.core, g),
       loops := s.loops + [Loop(g, if s.core.cancel.Some? then s.core.cancel.value else 0, Rest, true, AtTop)])
  }

  function DoRecv(s: State, i: nat): State
    requires i < |s.loops| && s.loops[i].consume.InRecv?
    requires s.loops[i].consume.gen < |s.wire|
    requires |s.wire[s.loops[i].consume.gen].inbound| < |s.wire[s.loops[i].consume.gen].pushed|
  {
    var g := s.loops[i].consume.gen;
    var p := s.wire[g];
    var r := p.pushed[|p.inbound|];
    var t := s.(wire := s.wire[g := p.(inbound := p.inbound + [r])]);
    if Arrivals(Direct)(r) != [] then Wrap(t, i, Direct, Arrivals(Direct)(r)[0])
    else if Arrivals(Fanned)(r) != [] then Wrap(t, i, Fanned, Arrivals(Fanned)(r)[0])
    else SetConsume(t, i, AtTop)
  }

  /** A new delivery, in the hand of loop `i`. */
  function Wrap(s: State, i: nat, k: Kind, a: Arrival): State
    requires i < |s.loops|
  {
    var l := LaneOf(s, k);
    SetConsume(SetLane(s, k, l.(items := l.items + [Item(a, Rest, 0, false)])), i, InHand(k, |l.items|))
  }

  function DoPush(s: State, i: nat): State
    requires i < |s.loops| && s.loops[i].consume.InHand?
  {
    var k := s.loops[i].consume.kind;
    if s.core.closed then s.(fault := Some(PushOnClosed(i)))
    else SetConsume(SetLane(s, k, LaneOf(s, k).(queue := LaneOf(s, k).queue + [s.loops[i].consume.item])), i, AtTop)
  }

  /** The first caller of Ack starts the promise: no id or a done context settles it without a frame. */
  function DoAckBegin(s: State, k: Kind, i: nat, ctxDone: bool): State
    requires i < |LaneOf(s, k).items|
  {
    var it := LaneOf(s, k).items[i];
    SetItem(s, k, i, it.(runs := it.runs + 1,
                         io := if it.arrival.ackId == "" then Over(true) else if ctxDone then Over(false) else Want))
  }

  /** The slot is taken out of the channel if there is one in it; otherwise the default branch runs. */
  function DoRelease(c: Config, s: State, i: nat): State
    requires i < |s.pubs|
  {
    var t := s.(pubs := s.pubs[i := s.pubs[i].(slot := false)]);
    if c.slots.None? then t
    else if s.inflight > 0 then t.(inflight := s.inflight - 1)
    else t.(emptyReleases := s.emptyReleases + 1)
  }

  /** Under the lock, the stream field is read: only acks test it for nil. */
  function DoCapture(s: State, x: Sender): State
    requires Exists(s, x)
  {
    if s.core.stream.Some? then SetIo(s, x, Busy(s.core.stream.value))
    else if x.Acker? then SetIo(s, x, Over(false)).(mu := None)
    else s.(fault := Some(SendOnNil(x)))
  }

  /** Send returns, and the lock is given back. */
  function DoFinish(s: State, x: Sender, ok: bool, nonce: string): State
    requires Exists(s, x) && IoOf(s, x).Busy? && IoOf(s, x).gen < |s.wire|
  {
    var t := s.(mu := None,
                wire := if ok then Transmit(s.wire, IoOf(s, x).gen, Packet(x, RequestOf(s, x, nonce))) else s.wire);
    match x
    case Publisher(i) => t.(pubs := s.pubs[i := s.pubs[i].(io := Over(ok), ingressed := ok)])
    case Beater(i) => SetIo(t, x, Rest)
    case Acker(k, i) => SetItem(t, k, i, LaneOf(s, k).items[i].(io := Over(ok), acked := ok))
  }

  // ----- runs

  predicate Runs(c: Config, s: State, acts: seq<Action>, t: State)
    decreases |acts|
  {
    if acts == [] then s == t
    else Can(c, s, acts[0]) && Runs(c, Do(c, s, acts[0]), acts[1..], t)
  }

  ghost predicate Reachable(c: Config, s: State) {
    exists acts :: Runs(c, INIT, acts, s)
  }
}
