/**
 The programs of Clients and the steps of Protocol: each call, made on a client that a state describes and
 with nobody else at the send lock, is a run of the protocol from that state, and the state it leads to
 describes the client afterwards.
 */
module ClientSteps {
  import opened Common
  import opened Envelopes
  import opened Frames
  import opened Protocol
  import opened ProtocolRuns
  import opened BridgeTheorems
  import opened BridgeLimits
  import opened Clients

  function Requests(sent: seq<Packet>): seq<Request> {
    seq(|sent|, i requires 0 <= i < |sent| => sent[i].req)
  }

  lemma RequestsPush(sent: seq<Packet>, p: Packet)
    ensures Requests(sent + [p]) == Requests(sent) + [p.req]
  {
  }

  /** The state describes the client's fields and the stream it is on, and the lock is free. */
  ghost predicate Mirrors(client: Client, c: Config, s: State)
    reads client, client.stream
  {
    && s.fault.None? && s.mu.None?
    && client.Fields() == s.core && client.inflight == s.inflight && client.slots == c.slots && client.info == c.info
    && (client.stream != null ==>
          client.stream.gen < |s.wire| && client.stream.sent == Requests(s.wire[client.stream.gen].sent))
  }

  // ----- connecting and closing

  function ConnectScript(opens: bool, registers: bool): seq<Action> {
    if !opens then [Run(DialFails)]
    else if !registers then [Run(OpenStream), Run(RegisterFails)]
    else [Run(OpenStream), Run(RegisterSent), Run(Launch)]
  }

  function AfterConnect(c: Config, s: State, opens: bool, registers: bool): State
    requires s.fault.None? && s.core.run.Dialing?
  {
    if !opens then DoRun(c, s, DialFails)
    else
      var o := DoRun(c, s, OpenStream);
      if !registers then DoRun(c, o, RegisterFails) else DoRun(c, DoRun(c, o, RegisterSent), Launch)
  }

  lemma ConnectRuns(c: Config, s: State, opens: bool, registers: bool)
    requires s.fault.None? && s.core.run.Dialing?
    ensures Runs(c, s, ConnectScript(opens, registers), AfterConnect(c, s, opens, registers))
  {
    var o := DoRun(c, s, OpenStream);
    if opens && registers {
      RunThree(c, s, Run(OpenStream), o, Run(RegisterSent), DoRun(c, o, RegisterSent), Run(Launch),
            AfterConnect(c, s, opens, registers));
    } else {
      RunTwo(c, s, Run(OpenStream), o, Run(RegisterFails), DoRun(c, o, RegisterFails));
      assert [Run(DialFails)][1..] == [];
    }
  }

  /** The steps of one attempt leave the fields that connect leaves. */
  lemma ConnectIsItsSteps(c: Config, s: State)
    requires s.fault.None? && s.core.run.Dialing?
    ensures AfterConnect(c, s, false, false).core == Dialed(s.core).(run := Backoff)
    ensures AfterConnect(c, s, true, false).core == Dialed(s.core).(run := Backoff, stream := Some(|s.wire|))
    ensures AfterConnect(c, s, true, true).core == Launched(Dialed(s.core).(stream := Some(|s.wire|)), |s.wire|)
  {
  }

  /** The attempt's frame and fields are those of the protocol's steps; failing to dial is failing to open. */
  method ConnectAsSteps(client: Client, g: nat, ctx: nat, dials: bool, opens: bool, registers: bool,
                        ghost c: Config, ghost s: State) returns (ok: bool)
    requires Mirrors(client, c, s) && s.core.run.Dialing? && g == |s.wire| && ctx == s.core.ctxs
    modifies client
    ensures var t := AfterConnect(c, s, dials && opens, registers);
            && Runs(c, s, ConnectScript(dials && opens, registers), t)
            && Mirrors(client, c, t)
            && (ok <==> t.core.run.Serving?)
  {
    ConnectRuns(c, s, dials && opens, registers);
    ConnectIsItsSteps(c, s);
    ok := client.Connect(ctx, g, dials, opens, registers);
  }

  method CloseAsStep(client: Client, begun: bool, fails: bool, ghost c: Config, ghost s: State) returns (ok: bool)
    requires Mirrors(client, c, s) && begun == !s.core.run.Idle?
    modifies client, client.stream, client.conn
    ensures if s.core.closed then Mirrors(client, c, s) else Mirrors(client, c, DoRun(c, s, Protocol.Close))
  {
    ok := client.Close(begun, fails);
  }

  // ----- publishing

  /** The steps of a publish call, by how it ends; `n` is its number. */
  function CallScript(n: nat, e: EnvelopeValue, id: Uuid, t: Instant, u: Instant, err: Option<SendError>): seq<Action> {
    match err
    case Some(NotStarted) => []
    case Some(ContextDone) => [PubCall(e), Pubs(n, Refuse)]
    case Some(Crashed) => SendScript(n, e, id, t, u)
    case _ => SendScript(n, e, id, t, u) + [Locking(Publisher(n), Finish(err.None?, "")), Pubs(n, Release)]
  }

  lemma RefusedRuns(c: Config, s: State, e: EnvelopeValue) returns (t: State)
    requires s.fault.None? && s.core.started && c.slots.Some?
    ensures Runs(c, s, [PubCall(e), Pubs(|s.pubs|, Refuse)], t)
    ensures t == s.(pubs := s.pubs + [Pub(e, Over(false), false, false)])
  {
    var s1 := Do(c, s, PubCall(e));
    t := Do(c, s1, Pubs(|s.pubs|, Refuse));
    RunTwo(c, s, PubCall(e), s1, Pubs(|s.pubs|, Refuse), t);
  }

  /** A whole call that reaches Send: one frame at most, and the slot given back. */
  lemma SentRuns(c: Config, s: State, e: EnvelopeValue, id: Uuid, mt: Instant, u: Instant, up: bool) returns (t: State)
    requires CanPublish(c, s) && s.core.stream.Some? && s.core.stream.value < |s.wire|
    ensures Runs(c, s, CallScript(|s.pubs|, e, id, mt, u, if up then None else Some(SendFailed)), t)
    ensures t.fault.None? && t.mu.None? && t.core == s.core && t.inflight == s.inflight
    ensures t.pubs == s.pubs + [Pub(Normalized(e, id, mt, u), Over(up), false, up)]
    ensures var p := Packet(Publisher(|s.pubs|), Ingress(Some(Normalized(e, id, mt, u))));
            t.wire == if up then Transmit(s.wire, s.core.stream.value, p) else s.wire
  {
    hide Normalized;
    PublishRuns(c, s, e, id, mt, u);
    var r := AfterPublish(s, c, e, id, mt, u);
    var finish, release := Locking(Publisher(|s.pubs|), Finish(up, "")), Pubs(|s.pubs|, Release);
    var s1 := Do(c, r, finish);
    assert s1.pubs == s.pubs + [Pub(Normalized(e, id, mt, u), Over(up), true, up)];
    t := Do(c, s1, release);
    RunTwo(c, r, finish, s1, release, t);
    hide Can, Do, AfterPublish;
    RunsJoin(c, s, SendScript(|s.pubs|, e, id, mt, u), r, [finish, release], t);
  }

  /** A call is exactly its script: the client afterwards is as the script leaves it, or both crash. */
  method PublishAsSteps(client: Client, env: Envelope, id: Uuid, mt: Instant, u: Instant,
                        ctxDone: bool, pick: bool, up: bool, ghost c: Config, ghost s: State)
    returns (err: Option<SendError>, ghost t: State)
    requires Mirrors(client, c, s) && (client.Full() ==> ctxDone)
    modifies client`inflight, client.stream, env.message
    ensures Runs(c, s, CallScript(|s.pubs|, old(env.Value()), id, mt, u, err), t)
    ensures if err == Some(Crashed) then t.fault == Some(SendOnNil(Publisher(|s.pubs|))) else Mirrors(client, c, t)
  {
    hide Normalized, AfterPublish;
    ghost var e := env.Value();
    err := client.PublishIngress(env, id, mt, u, ctxDone, pick, up);
    match err
    case Some(NotStarted) =>
      t := s;
    case Some(ContextDone) =>
      t := RefusedRuns(c, s, e);
    case Some(Crashed) =>
      PublishRuns(c, s, e, id, mt, u);
      t := AfterPublish(s, c, e, id, mt, u);
      CrashedAfter(c, s, e, id, mt, u);
    case Some(StreamNotReady) =>
      assert false;
    case Some(SendFailed) =>
      t := SentRuns(c, s, e, id, mt, u, false);
    case None =>
      t := SentRuns(c, s, e, id, mt, u, true);
      RequestsPush(s.wire[client.stream.gen].sent, Packet(Publisher(|s.pubs|), Ingress(Some(Normalized(e, id, mt, u)))));
  }

  lemma CrashedAfter(c: Config, s: State, e: EnvelopeValue, id: Uuid, mt: Instant, u: Instant)
    ensures s.core.stream.None? ==> AfterPublish(s, c, e, id, mt, u).fault == Some(SendOnNil(Publisher(|s.pubs|)))
  {
  }

  /** Waiting for a slot is being admitted or refused. */
  method AcquireAsStep(client: Client, ctxDone: bool, pick: bool, ghost c: Config, ghost s: State, ghost i: nat,
                       ghost id: Uuid, ghost mt: Instant, ghost u: Instant) returns (ok: bool)
    requires Mirrors(client, c, s) && (client.Full() ==> ctxDone) && i < |s.pubs| && s.pubs[i].io.Rest?
    modifies client`inflight
    ensures var p := if ok then Admit(id, mt, u) else Refuse;
            CanPub(c, s, i, p) && Mirrors(client, c, DoPub(c, s, i, p))
    ensures !ctxDone ==> ok
  {
    ok := client.AcquireSlot(ctxDone, pick);
  }

  /** In a reachable state the slot given back is one that was taken. */
  method ReleaseAsStep(client: Client, ghost c: Config, ghost s: State, ghost i: nat)
    requires Mirrors(client, c, s) && CanPub(c, s, i, Release)
    modifies client`inflight
    ensures Mirrors(client, c, DoPub(c, s, i, Release))
    ensures Reachable(c, s) ==> client.inflight == old(client.inflight) - if c.slots.Some? then 1 else 0
  {
    if Reachable(c, s) {
      Backpressure(c, s);
    }
    client.ReleaseSlot();
  }

  // ----- acknowledging

  /** Item `i` of its lane is this delivery: taken by the subscriber, its promise as far as the fields say. */
  ghost predicate Describes(s: State, d: Delivery, i: nat)
    reads d
  {
    && i < |LaneOf(s, d.kind).items| && i in LaneOf(s, d.kind).got
    && var it := LaneOf(s, d.kind).items[i];
       it.arrival.ackId == d.ackId && it.io == if d.once then Over(d.ackErr == None) else Rest
  }

  /** The way through the lock, to Send when there is a stream. */
  function LockScript(x: Sender, ready: bool, up: bool): seq<Action> {
    [Locking(x, Acquire), Locking(x, Capture)] + if ready then [Locking(x, Finish(up, ""))] else []
  }

  /** What the lock makes of an ack that wants it: a frame, a failed Send, or no stream. */
  function AckSent(s: State, k: Kind, i: nat, up: bool): State
    requires i < |LaneOf(s, k).items| && (s.core.stream.Some? ==> s.core.stream.value < |s.wire|)
  {
    var it := LaneOf(s, k).items[i];
    if s.core.stream.None? then SetItem(s, k, i, it.(io := Over(false)))
    else
      var p := Packet(Acker(k, i), RequestOf(s, Acker(k, i), ""));
      var wire := if up then Transmit(s.wire, s.core.stream.value, p) else s.wire;
      SetItem(s, k, i, it.(io := Over(up), acked := up)).(wire := wire)
  }

  /** An ack's progress, and nothing else. */
  function AckAt(s: State, k: Kind, i: nat, io: Io): State
    requires i < |LaneOf(s, k).items|
  {
    SetItem(s, k, i, LaneOf(s, k).items[i].(io := io))
  }

  lemma AckOwns(c: Config, s: State, k: Kind, i: nat)
    requires s.fault.None? && s.mu.None? && i < |LaneOf(s, k).items| && LaneOf(s, k).items[i].io.Want?
    ensures var a := Locking(Acker(k, i), Acquire);
            Can(c, s, a) && Do(c, s, a) == AckAt(s, k, i, Own).(mu := Some(Acker(k, i)))
  {
  }

  lemma AckCaptures(c: Config, s: State, k: Kind, i: nat)
    requires s.fault.None? && s.mu.None? && i < |LaneOf(s, k).items|
    ensures var o := AckAt(s, k, i, Own).(mu := Some(Acker(k, i)));
            var a := Locking(Acker(k, i), Capture);
            && Can(c, o, a)
            && Do(c, o, a) == if s.core.stream.None? then AckAt(s, k, i, Over(false))
                              else AckAt(s, k, i, Busy(s.core.stream.value)).(mu := Some(Acker(k, i)))
  {
  }

  lemma AckFinishes(c: Config, s: State, k: Kind, i: nat, up: bool)
    requires s.fault.None? && s.mu.None? && i < |LaneOf(s, k).items|
    requires s.core.stream.Some? && s.core.stream.value < |s.wire|
    ensures var b := AckAt(s, k, i, Busy(s.core.stream.value)).(mu := Some(Acker(k, i)));
            var a := Locking(Acker(k, i), Finish(up, ""));
            Can(c, b, a) && Do(c, b, a) == AckSent(s, k, i, up)
  {
  }

  lemma AckLocks(c: Config, s: State, k: Kind, i: nat, up: bool)
    requires s.fault.None? && s.mu.None? && i < |LaneOf(s, k).items| && LaneOf(s, k).items[i].io.Want?
    requires s.core.stream.Some? ==> s.core.stream.value < |s.wire|
    ensures Runs(c, s, LockScript(Acker(k, i), s.core.stream.Some?, up), AckSent(s, k, i, up))
  {
    var x := Acker(k, i);
    assert s.core.stream.None? ==> AckSent(s, k, i, up) == AckAt(s, k, i, Over(false));
    hide Can, Do, AckAt, AckSent, Runs;
    AckOwns(c, s, k, i);
    AckCaptures(c, s, k, i);
    var s1 := Do(c, s, Locking(x, Acquire));
    var s2 := Do(c, s1, Locking(x, Capture));
    if s.core.stream.None? {
      RunTwo(c, s, Locking(x, Acquire), s1, Locking(x, Capture), s2);
      assert LockScript(x, false, up) == [Locking(x, Acquire), Locking(x, Capture)];
    } else {
      AckFinishes(c, s, k, i, up);
      RunThree(c, s, Locking(x, Acquire), s1, Locking(x, Capture), s2, Locking(x, Finish(up, "")), AckSent(s, k, i, up));
      assert LockScript(x, true, up) == [Locking(x, Acquire), Locking(x, Capture), Locking(x, Finish(up, ""))];
    }
  }

  /** The state after a whole Ack call. */
  function AfterAck(s: State, k: Kind, i: nat, first: bool, ctxDone: bool, up: bool): State
    requires i < |LaneOf(s, k).items| && (s.core.stream.Some? ==> s.core.stream.value < |s.wire|)
  {
    var b := if first then DoAckBegin(s, k, i, ctxDone) else s;
    var l := if LaneOf(b, k).items[i].io.Want? then AckSent(b, k, i, up) else b;
    var io := LaneOf(l, k).items[i].io;
    l.(answers := l.answers + [Answer(k, i, io.Over? && io.ok)])
  }

  /** The steps of an Ack call: only the first of a promise that has an id and a live context goes to the lock. */
  function AckScript(s: State, k: Kind, i: nat, first: bool, ctxDone: bool, up: bool): seq<Action>
    requires i < |LaneOf(s, k).items|
  {
    (if first then [AckCall(k, i, Begin(ctxDone))] else [])
    + (if first && LaneOf(s, k).items[i].arrival.ackId != "" && !ctxDone
       then LockScript(Acker(k, i), s.core.stream.Some?, up) else [])
    + [AckCall(k, i, Return)]
  }

  lemma AckBegins(c: Config, s: State, k: Kind, i: nat, ctxDone: bool)
    requires s.fault.None? && s.mu.None? && i < |LaneOf(s, k).items| && i in LaneOf(s, k).got
    requires LaneOf(s, k).items[i].io.Rest?
    ensures var b := DoAckBegin(s, k, i, ctxDone);
            && Can(c, s, AckCall(k, i, Begin(ctxDone))) && b == Do(c, s, AckCall(k, i, Begin(ctxDone)))
            && b.fault.None? && b.mu.None? && b.core == s.core && b.wire == s.wire && i < |LaneOf(b, k).items|
            && var io := LaneOf(b, k).items[i].io;
               if LaneOf(s, k).items[i].arrival.ackId != "" && !ctxDone then io.Want? else io.Over?
  {
  }

  lemma AckReturns(c: Config, s: State, k: Kind, i: nat)
    requires s.fault.None? && i < |LaneOf(s, k).items| && LaneOf(s, k).items[i].io.Over?
    ensures var a := AckCall(k, i, Return);
            && Can(c, s, a)
            && Do(c, s, a) == s.(answers := s.answers + [Answer(k, i, LaneOf(s, k).items[i].io.ok)])
            && Runs(c, s, [a], Do(c, s, a))
  {
    assert [AckCall(k, i, Return)][1..] == [];
  }

  lemma AckSettles(s: State, k: Kind, i: nat, up: bool)
    requires i < |LaneOf(s, k).items| && (s.core.stream.Some? ==> s.core.stream.value < |s.wire|)
    ensures var l := AckSent(s, k, i, up);
            l.fault == s.fault && i < |LaneOf(l, k).items| && LaneOf(l, k).items[i].io.Over?
  {
  }

  /** A first call: the promise is started, goes through the lock if it has to, and answers. */
  lemma FirstAckRuns(c: Config, s: State, k: Kind, i: nat, ctxDone: bool, up: bool)
    requires s.fault.None? && s.mu.None? && i < |LaneOf(s, k).items| && i in LaneOf(s, k).got
    requires LaneOf(s, k).items[i].io.Rest?
    requires s.core.stream.Some? ==> s.core.stream.value < |s.wire|
    ensures Runs(c, s, AckScript(s, k, i, true, ctxDone, up), AfterAck(s, k, i, true, ctxDone, up))
  {
    hide Can, Do, DoAckBegin, AckSent, LockScript;
    var begin, back := AckCall(k, i, Begin(ctxDone)), AckCall(k, i, Return);
    var b := DoAckBegin(s, k, i, ctxDone);
    AckBegins(c, s, k, i, ctxDone);
    if LaneOf(b, k).items[i].io.Want? {
      var l := AckSent(b, k, i, up);
      var locks := LockScript(Acker(k, i), s.core.stream.Some?, up);
      AckLocks(c, b, k, i, up);
      AckSettles(b, k, i, up);
      AckReturns(c, l, k, i);
      RunPush(c, b, locks, l, back);
      assert ([begin] + locks + [back])[1..] == locks + [back];
    } else {
      AckReturns(c, b, k, i);
      RunTwo(c, s, begin, b, back, Do(c, b, back));
      assert [begin] + [] + [back] == [begin, back];
    }
  }

  lemma AckRuns(c: Config, s: State, k: Kind, i: nat, first: bool, ctxDone: bool, up: bool)
    requires s.fault.None? && s.mu.None? && i < |LaneOf(s, k).items| && i in LaneOf(s, k).got
    requires if first then LaneOf(s, k).items[i].io.Rest? else LaneOf(s, k).items[i].io.Over?
    requires s.core.stream.Some? ==> s.core.stream.value < |s.wire|
    ensures Runs(c, s, AckScript(s, k, i, first, ctxDone, up), AfterAck(s, k, i, first, ctxDone, up))
  {
    if first {
      FirstAckRuns(c, s, k, i, ctxDone, up);
    } else {
      AckReturns(c, s, k, i);
      assert [] + [] + [AckCall(k, i, Return)] == [AckCall(k, i, Return)];
    }
    hide Runs, DoAckBegin, AckSent, Can, Do;
  }

  /** How an Ack call answers: as the first call did, or from what this one finds. */
  function AckOk(s: State, k: Kind, i: nat, first: bool, ctxDone: bool, up: bool): bool
    requires i < |LaneOf(s, k).items|
  {
    var it := LaneOf(s, k).items[i];
    if !first then it.io.Over? && it.io.ok else it.arrival.ackId == "" || (!ctxDone && s.core.stream.Some? && up)
  }

  lemma BeginEffects(s: State, k: Kind, i: nat, ctxDone: bool)
    requires i < |LaneOf(s, k).items|
    ensures var b := DoAckBegin(s, k, i, ctxDone);
            var it := LaneOf(s, k).items[i];
            && b.core == s.core && b.inflight == s.inflight && b.fault == s.fault && b.mu == s.mu && b.wire == s.wire
            && b.answers == s.answers
            && |LaneOf(b, k).items| == |LaneOf(s, k).items| && LaneOf(b, k).got == LaneOf(s, k).got
            && LaneOf(b, k).items[i].arrival == it.arrival
            && LaneOf(b, k).items[i].io == (if it.arrival.ackId == "" then Over(true)
                                            else if ctxDone then Over(false) else Want)
            && RequestOf(b, Acker(k, i), "") == RequestOf(s, Acker(k, i), "")
  {
  }

  lemma SentEffects(s: State, k: Kind, i: nat, up: bool)
    requires i < |LaneOf(s, k).items| && (s.core.stream.Some? ==> s.core.stream.value < |s.wire|)
    ensures var l := AckSent(s, k, i, up);
            var ok := s.core.stream.Some? && up;
            && l.core == s.core && l.inflight == s.inflight && l.fault == s.fault && l.mu == s.mu && l.answers == s.answers
            && |LaneOf(l, k).items| == |LaneOf(s, k).items| && LaneOf(l, k).got == LaneOf(s, k).got
            && LaneOf(l, k).items[i].arrival == LaneOf(s, k).items[i].arrival && LaneOf(l, k).items[i].io == Over(ok)
            && l.wire == if ok then Transmit(s.wire, s.core.stream.value, Packet(Acker(k, i), RequestOf(s, Acker(k, i), "")))
                         else s.wire
  {
  }

  lemma AckEffects(s: State, k: Kind, i: nat, first: bool, ctxDone: bool, up: bool)
    requires i < |LaneOf(s, k).items| && (s.core.stream.Some? ==> s.core.stream.value < |s.wire|)
    requires if first then LaneOf(s, k).items[i].io.Rest? else LaneOf(s, k).items[i].io.Over?
    ensures var t := AfterAck(s, k, i, first, ctxDone, up);
            var ok := AckOk(s, k, i, first, ctxDone, up);
            var it := LaneOf(s, k).items[i];
            && t.core == s.core && t.inflight == s.inflight && t.fault == s.fault && t.mu == s.mu
            && |LaneOf(t, k).items| == |LaneOf(s, k).items| && LaneOf(t, k).got == LaneOf(s, k).got
            && LaneOf(t, k).items[i].arrival == it.arrival && LaneOf(t, k).items[i].io == Over(ok)
            && t.answers == s.answers + [Answer(k, i, ok)]
            && t.wire == if first && it.arrival.ackId != "" && ok
                         then Transmit(s.wire, s.core.stream.value, Packet(Acker(k, i), RequestOf(s, Acker(k, i), "")))
                         else s.wire
  {
    if first {
      var b := DoAckBegin(s, k, i, ctxDone);
      BeginEffects(s, k, i, ctxDone);
      if LaneOf(b, k).items[i].io.Want? {
        SentEffects(b, k, i, up);
      }
    }
    hide DoAckBegin, AckSent, RequestOf, Transmit;
  }

  /** A call is exactly its script, and the answer it records is the one the caller gets. */
  method AckAsSteps(d: Delivery, client: Client, ctxDone: bool, up: bool, ghost c: Config, ghost s: State, ghost i: nat)
    returns (err: Option<SendError>)
    requires Mirrors(client, c, s) && Describes(s, d, i)
    modifies d, client.stream
    ensures var t := AfterAck(s, d.kind, i, !old(d.once), ctxDone, up);
            && Runs(c, s, AckScript(s, d.kind, i, !old(d.once), ctxDone, up), t)
            && Mirrors(client, c, t) && Describes(t, d, i)
            && t.answers == s.answers + [Answer(d.kind, i, err == None)]
  {
    AckRuns(c, s, d.kind, i, !d.once, ctxDone, up);
    AckEffects(s, d.kind, i, !d.once, ctxDone, up);
    hide AfterAck, AckScript, Runs;
    ghost var frame := Packet(Acker(d.kind, i), RequestOf(s, Acker(d.kind, i), ""));
    err := d.Ack(client, ctxDone, up);
    if client.stream != null {
      RequestsPush(s.wire[client.stream.gen].sent, frame);
    }
  }
}
