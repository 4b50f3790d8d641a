/** The client's sequential parts as programs: the consume loop, connect and cleanup, publishing, ack promises. */
module Clients {
  import opened Common
  import opened Envelopes
  import opened Frames
  import opened Protocol

  /**
   What the consume loop touches: the frames Recv will still return before it fails, the two channels,
   and the error channel. `cancelled(n)` says whether the n-th channel send finds the context done.
   */
  class Reader {
    var inbox: seq<Response>
    var deliverCh: seq<Arrival>
    var broadcastCh: seq<Arrival>
    var errors: nat
    const cancelled: nat -> bool

    constructor (frames: seq<Response>, cancelled: nat -> bool)
      ensures inbox == frames && deliverCh == [] && broadcastCh == [] && errors == 0
      ensures this.cancelled == cancelled
    {
      inbox, deliverCh, broadcastCh, errors := frames, [], [], 0;
      this.cancelled := cancelled;
    }

    /**
     Receives until Recv fails or a send finds the context done. `n` frames were received; the last of
     them is in `dropped` when the loop stopped on the context, and otherwise the error was reported.
     */
    method ReceiveAll() returns (n: nat, dropped: seq<Arrival>)
      modifies this
      ensures n + |inbox| == |old(inbox)| && inbox == old(inbox)[n..]
      ensures |dropped| <= 1 && |dropped| <= n && (dropped == [] ==> inbox == []) && errors == old(errors) + 1 - |dropped|
      ensures deliverCh == old(deliverCh) + FlatMap(old(inbox)[..n - |dropped|], Arrivals(Direct))
      ensures broadcastCh == old(broadcastCh) + FlatMap(old(inbox)[..n - |dropped|], Arrivals(Fanned))
      ensures dropped != [] ==> dropped == Arrivals(Direct)(old(inbox)[n - 1]) + Arrivals(Fanned)(old(inbox)[n - 1])
    {
      hide FlatMap;
      ghost var frames := inbox;
      FlatMapFew(Empty, Arrivals(Direct));
      FlatMapFew(Empty, Arrivals(Fanned));
      assert frames[..0] == [];
      n := 0;
      var sends := 0;
      while true
        invariant n <= |frames| && inbox == frames[n..] && errors == old(errors)
        invariant deliverCh == old(deliverCh) + FlatMap(frames[..n], Arrivals(Direct))
        invariant broadcastCh == old(broadcastCh) + FlatMap(frames[..n], Arrivals(Fanned))
        decreases |inbox|
      {
        if inbox == [] {
          assert frames[..n] == frames;
          errors := errors + 1;
          return n, [];
        }
        var resp := inbox[0];
        inbox := inbox[1..];
        assert frames[..n + 1] == frames[..n] + [resp];
        FlatMapPush(frames[..n], resp, Arrivals(Direct));
        FlatMapPush(frames[..n], resp, Arrivals(Fanned));
        n := n + 1;
        match resp {
          case Deliver(e) =>
            if e.Some? {
              var delivery := Arrival(e.value, RequestId(e.value));
              if cancelled(sends) {
                return n, [delivery];
              }
              sends := sends + 1;
              deliverCh := deliverCh + [delivery];
            }
          case Broadcast(e, id) =>
            if e.Some? {
              var delivery := Arrival(e.value, id);
              if cancelled(sends) {
                return n, [delivery];
              }
              sends := sends + 1;
              broadcastCh := broadcastCh + [delivery];
            }
          case Pong(_) =>
          case Empty =>
        }
      }
    }

    /** What the loop leaves in the channels, in terms of the envelopes in the frames. */
    method Consume() returns (n: nat, dropped: seq<Arrival>)
      modifies this
      ensures n + |inbox| == |old(inbox)| && inbox == old(inbox)[n..] && |dropped| <= 1 && |dropped| <= n
      ensures errors == old(errors) + 1 - |dropped| && (dropped == [] ==> inbox == [])
      ensures old(deliverCh) <= deliverCh
              && Wraps(Direct, old(inbox)[..n - |dropped|], deliverCh[|old(deliverCh)|..])
      ensures old(broadcastCh) <= broadcastCh
              && Wraps(Fanned, old(inbox)[..n - |dropped|], broadcastCh[|old(broadcastCh)|..])
      ensures dropped != [] ==> DroppedLast(old(inbox)[n - 1], dropped)
    {
      ghost var frames, direct, fanned := inbox, deliverCh, broadcastCh;
      n, dropped := ReceiveAll();
      hide FlatMap, Wraps, DroppedLast, Arrivals;
      if dropped != [] {
        DropWraps(frames[n - 1], dropped);
      }
      ghost var kept := frames[..n - |dropped|];
      GivenWraps(Direct, kept, direct, deliverCh);
      GivenWraps(Fanned, kept, fanned, broadcastCh);
    }
  }

  /** The dropped arrival is what the last frame brought. */
  predicate DroppedLast(last: Response, dropped: seq<Arrival>) {
    if last.Deliver? then Wraps(Direct, [last], dropped) else last.Broadcast? && Wraps(Fanned, [last], dropped)
  }

  lemma SingleWraps(k: Kind, r: Response)
    ensures Wraps(k, [r], Arrivals(k)(r))
  {
    hide Arrivals, Wraps, FlatMap;
    ArrivalsWrap(k, [r]);
    FlatMapFew(r, Arrivals(k));
  }

  lemma DropIsOne(last: Response, dropped: seq<Arrival>)
    requires dropped != [] && dropped == Arrivals(Direct)(last) + Arrivals(Fanned)(last)
    ensures |dropped| == 1
    ensures if last.Deliver? then dropped == Arrivals(Direct)(last) else last.Broadcast? && dropped == Arrivals(Fanned)(last)
  {
    var k := if last.Deliver? then Direct else Fanned;
    assert Arrivals(Direct)(last) + Arrivals(Fanned)(last) == Arrivals(k)(last);
  }

  lemma DropWraps(last: Response, dropped: seq<Arrival>)
    requires dropped != [] && dropped == Arrivals(Direct)(last) + Arrivals(Fanned)(last)
    ensures |dropped| == 1 && DroppedLast(last, dropped)
  {
    hide Arrivals, Wraps;
    DropIsOne(last, dropped);
    SingleWraps(if last.Deliver? then Direct else Fanned, last);
  }

  lemma GivenWraps(k: Kind, frames: seq<Response>, was: seq<Arrival>, now: seq<Arrival>)
    requires now == was + FlatMap(frames, Arrivals(k))
    ensures was <= now && Wraps(k, frames, now[|was|..])
  {
    ArrivalsWrap(k, frames);
    hide FlatMap, Wraps;
    assert now[|was|..] == FlatMap(frames, Arrivals(k));
  }

  // ----- what a connect opens

  /** The sending side of one stream; `gen` numbers the streams in the order they are made. */
  class ClientStream {
    const gen: nat
    var sent: seq<Request>
    var halfClosed: bool

    constructor (gen: nat)
      ensures this.gen == gen && sent == [] && !halfClosed
    {
      this.gen, sent, halfClosed := gen, [], false;
    }

    /** `up` says whether the transport accepts the frame. */
    method Send(r: Request, up: bool) returns (ok: bool)
      modifies `sent
      ensures ok == up && sent == if up then old(sent) + [r] else old(sent)
    {
      if up {
        sent := sent + [r];
      }
      ok := up;
    }

    method CloseSend()
      modifies `halfClosed
      ensures halfClosed
    {
      halfClosed := true;
    }
  }

  class Conn {
    var open: bool

    constructor ()
      ensures open
    {
      open := true;
    }

    method Close()
      modifies this
      ensures !open
    {
      open := false;
    }
  }

  // ----- the client

  datatype SendError = NotStarted | ContextDone | StreamNotReady | SendFailed | Crashed

  /** Contexts go by their numbers. */
  class Client {
    const info: RegisterInfo
    const slots: Option<Capacity>
    ghost var run: RunPc
    ghost var ctxs: nat
    ghost var history: seq<Event>
    var runDone: bool
    var closed: bool
    var started: bool
    var stream: ClientStream?
    var conn: Conn?
    var cancel: Option<nat>
    var cancelled: set<nat>
    var recvErr: Option<seq<nat>>
    var wg: int
    var inflight: nat
    var channelsOpen: bool

    constructor (info: RegisterInfo, slots: Option<Capacity>)
      ensures Fields() == INIT.core && inflight == INIT.inflight && this.slots == slots && this.info == info
      ensures stream == null && conn == null && channelsOpen
    {
      run, ctxs, history := Idle, 0, [];
      runDone, closed, started, stream, conn, cancel := false, false, false, null, null, None;
      cancelled, recvErr, wg, inflight, channelsOpen := {}, None, 0, 0, true;
      this.info, this.slots := info, slots;
    }

    ghost function Fields(): Core
      reads this
    {
      Core(run, runDone, closed, started, if stream == null then None else Some(stream.gen), cancel, ctxs, cancelled,
           recvErr, wg, history)
    }

    /**
     One attempt to connect: `ctx` and `g` number its context and stream, the flags say how far it gets.
     A new connection or stream stays in its field when a later part fails.
     */
    method Connect(ctx: nat, g: nat, dials: bool, opens: bool, registers: bool) returns (ok: bool)
      requires ctx == ctxs
      modifies this
      ensures ok == (dials && opens && registers) && inflight == old(inflight) && channelsOpen == old(channelsOpen)
      ensures if dials then conn != null && fresh(conn) && conn.open else conn == old(conn)
      ensures if dials && opens
              then stream != null && fresh(stream) && stream.gen == g
                   && stream.sent == if registers then [Register(Some(info))] else []
              else stream == old(stream)
      ensures Fields() ==
              if !dials || !opens then Dialed(old(Fields())).(run := Backoff)
              else if !registers then Dialed(old(Fields())).(run := Backoff, stream := Some(g))
              else Launched(Dialed(old(Fields())).(stream := Some(g)), g)
      ensures cancel == Some(ctx) && runDone == old(runDone) && closed == old(closed) && cancelled == old(cancelled)
      ensures started == (old(started) || ok) && recvErr == (if ok then Some([]) else old(recvErr))
      ensures wg == if ok then old(wg) + 1 else old(wg)
    {
      hide Launched, Dialed;
      ok := Open(ctx, g, dials, opens);
      if ok {
        ok := Begin(registers);
      }
    }

    /** The rest of connect: registering, and the start of the two loops. */
    method Begin(registers: bool) returns (ok: bool)
      requires stream != null && stream.sent == []
      modifies `started, `recvErr, `wg, `run, `history, stream
      ensures ok == registers && stream.sent == if ok then [Register(Some(info))] else []
      ensures Fields() == if ok then Launched(old(Fields()), stream.gen) else old(Fields()).(run := Backoff)
      ensures started == (old(started) || ok) && recvErr == (if ok then Some([]) else old(recvErr))
      ensures wg == if ok then old(wg) + 1 else old(wg)
    {
      ok := stream.Send(Register(Some(info)), registers);
      if !ok {
        run := Backoff;
        return;
      }
      started, recvErr, wg := true, Some([]), wg + 1;
      run, history := Serving, history + [Connected(stream.gen)];
    }

    /** The part of connect up to the assignment of the stream. */
    method Open(ctx: nat, g: nat, dials: bool, opens: bool) returns (ok: bool)
      requires ctx == ctxs
      modifies `cancel, `ctxs, `conn, `stream, `run
      ensures ok == (dials && opens) && cancel == Some(ctx)
      ensures if dials then conn != null && fresh(conn) && conn.open else conn == old(conn)
      ensures if ok then stream != null && fresh(stream) && stream.gen == g && stream.sent == [] else stream == old(stream)
      ensures Fields() == if ok then Dialed(old(Fields())).(stream := Some(g)) else Dialed(old(Fields())).(run := Backoff)
    {
      cancel, ctxs := Some(ctx), ctxs + 1;
      if dials {
        conn := new Conn();
        if opens {
          stream := new ClientStream(g);
        }
      }
      ok := dials && opens;
      if !ok {
        run := Backoff;
      }
    }

    method CleanUp()
      modifies this, stream, conn
      ensures Fields() == Cleanup(old(Fields())) && inflight == old(inflight) && channelsOpen == old(channelsOpen)
      ensures stream == null && conn == null
      ensures old(stream) != null ==> old(stream).halfClosed && old(stream).sent == old(stream.sent)
      ensures old(conn) != null ==> !old(conn).open
      ensures cancel == None && cancelled == old(cancelled) + if old(cancel) == None then {} else {old(cancel).value}
      ensures started == old(started) && runDone == old(runDone) && closed == old(closed)
      ensures recvErr == old(recvErr) && wg == old(wg)
    {
      CancelConnect();
      history := history + [CleanedUp(if stream == null then None else Some(stream.gen))];
      ShutDown();
    }

    /** The part of cleanup about the connect context. */
    method CancelConnect()
      modifies `cancel, `cancelled
      ensures cancel == None && cancelled == old(cancelled) + if old(cancel) == None then {} else {old(cancel).value}
      ensures Fields() == old(Fields()).(cancel := None, cancelled := cancelled)
    {
      if cancel.Some? {
        cancelled := cancelled + {cancel.value};
        cancel := None;
      }
    }

    /** The part of cleanup about what the connect opened. */
    method ShutDown()
      modifies `stream, `conn, stream, conn
      ensures stream == null && conn == null
      ensures old(stream) != null ==> old(stream).halfClosed && old(stream).sent == old(stream.sent)
      ensures old(conn) != null ==> !old(conn).open
    {
      if stream != null {
        stream.CloseSend();
        stream := null;
      }
      if conn != null {
        conn.Close();
        conn := null;
      }
    }

    /**
     Only the first Close does anything: it cancels, shuts down what the fields still hold, and closes the
     channels. `begun` says whether Start has made the run context, `fails` what CloseSend returns.
     */
    method Close(begun: bool, fails: bool) returns (ok: bool)
      requires begun == !run.Idle?
      modifies this, stream, conn
      ensures inflight == old(inflight) && stream == old(stream) && conn == old(conn)
      ensures old(closed) ==> ok && Fields() == old(Fields()) && channelsOpen == old(channelsOpen)
      ensures !old(closed) ==>
                && Fields() == Closed(old(Fields())) && !channelsOpen
                && (stream != null ==> stream.halfClosed && ok == !fails) && (stream == null ==> ok)
                && (conn != null ==> !conn.open)
                && closed && runDone == (old(runDone) || begun)
                && cancelled == old(cancelled) + if old(cancel) == None then {} else {old(cancel).value}
      ensures cancel == old(cancel) && started == old(started) && recvErr == old(recvErr) && wg == old(wg)
      ensures stream != null ==> stream.sent == old(stream.sent)
    {
      ok := true;
      if closed {
        return;
      }
      if begun {
        runDone := true;
      }
      if cancel.Some? {
        cancelled := cancelled + {cancel.value};
      }
      if stream != null {
        stream.CloseSend();
        ok := !fails;
      }
      if conn != null {
        conn.Close();
      }
      channelsOpen := false;
      closed := true;
    }

    /** No slot is free, so that a call waits for one or for its context. */
    predicate Full()
      reads this
    {
      slots.Some? && slots.value <= inflight
    }

    /** The wait for a slot; when there is room and the context is done too, `pick` decides. */
    method AcquireSlot(ctxDone: bool, pick: bool) returns (ok: bool)
      requires Full() ==> ctxDone
      modifies `inflight
      ensures ok ==> !old(Full()) && inflight == if slots.Some? then old(inflight) + 1 else old(inflight)
      ensures !ok ==> slots.Some? && ctxDone && inflight == old(inflight)
      ensures slots.None? || !ctxDone ==> ok
    {
      if slots.None? {
        return true;
      }
      ok := inflight < slots.value && (pick || !ctxDone);
      if ok {
        inflight := inflight + 1;
      }
    }

    method ReleaseSlot()
      modifies `inflight
      ensures inflight == if slots.Some? && old(inflight) > 0 then old(inflight) - 1 else old(inflight)
    {
      if slots.None? {
        return;
      }
      if inflight > 0 {
        inflight := inflight - 1;
      }
    }

    /**
     The caller's envelope is copied by value, so publishing writes only to the shared message, and only once
     a slot is acquired. Every return gives the slot back; a nil stream is a crash.
     */
    method PublishIngress(env: Envelope, id: Uuid, messageNow: Instant, now: Instant, ctxDone: bool, pick: bool, up: bool)
      returns (err: Option<SendError>)
      requires Full() ==> ctxDone
      modifies `inflight, stream, env.message
      ensures stream != null ==> stream.halfClosed == old(stream.halfClosed)
      ensures env.message == old(env.message)
      ensures err == Some(NotStarted) <==> !started
      ensures err != Some(NotStarted) && err != Some(ContextDone) ==> !old(Full())
      ensures err == Some(ContextDone) ==> ctxDone && slots.Some?
      ensures !ctxDone && started ==> err == if stream == null then Some(Crashed) else if up then None else Some(SendFailed)
      ensures err == Some(Crashed) ==> stream == null
      ensures err == Some(SendFailed) ==> stream != null && !up
      ensures err == None ==> stream != null && up
      ensures err != Some(StreamNotReady)
      ensures env.message != null ==>
                env.message.Value() == if err in {Some(NotStarted), Some(ContextDone)} then old(env.message.Value())
                                       else NormalizedMessage(old(env.message.Value()), id, messageNow)
      ensures stream != null ==>
                stream.sent == old(stream.sent) +
                  if err == None then [Ingress(Some(Normalized(old(env.Value()), id, messageNow, now)))] else []
      ensures err != Some(Crashed) ==> inflight == old(inflight)
      ensures err == Some(Crashed) ==> inflight == old(inflight) + if slots.Some? then 1 else 0
    {
      hide NormalizedMessage, Normalized;
      if !started {
        return Some(NotStarted);
      }
      var room := AcquireSlot(ctxDone, pick);
      if !room {
        return Some(ContextDone);
      }
      err := SendIngress(env, id, messageNow, now, up);
      if err != Some(Crashed) {
        ReleaseSlot();
      }
    }

    /** The admitted part of a publish. */
    method SendIngress(env: Envelope, id: Uuid, messageNow: Instant, now: Instant, up: bool)
      returns (err: Option<SendError>)
      modifies stream, env.message
      ensures env.message == old(env.message)
      ensures err == if stream == null then Some(Crashed) else if up then None else Some(SendFailed)
      ensures stream != null ==> stream.halfClosed == old(stream.halfClosed)
      ensures env.message != null ==> env.message.Value() == NormalizedMessage(old(env.message.Value()), id, messageNow)
      ensures stream != null ==>
                stream.sent == old(stream.sent) +
                  if err == None then [Ingress(Some(Normalized(old(env.Value()), id, messageNow, now)))] else []
    {
      hide NormalizedMessage;
      var copy := new Envelope.CopyOf(env);
      NormalizeEnvelope(copy, id, messageNow, now);
      if stream == null {
        return Some(Crashed);
      }
      var ok := stream.Send(Ingress(Some(copy.Value())), up);
      return if ok then None else Some(SendFailed);
    }

    /** An empty pair of ids is settled without a frame; unlike a publish, a nil stream is an error. */
    method SendAck(messageId: string, broadcastId: string, ctxDone: bool, up: bool) returns (err: Option<SendError>)
      modifies stream
      ensures stream != null ==> stream.halfClosed == old(stream.halfClosed)
      ensures stream != null ==>
                stream.sent == old(stream.sent) +
                  if messageId + broadcastId != "" && err.None? then [Ack(Some(AckBody(messageId, broadcastId)))] else []
      ensures err == (if messageId + broadcastId == "" then None
                      else if ctxDone then Some(ContextDone)
                      else if stream == null then Some(StreamNotReady)
                      else if up then None else Some(SendFailed))
    {
      if messageId == "" && broadcastId == "" {
        return None;
      }
      if ctxDone {
        return Some(ContextDone);
      }
      if stream == null {
        return Some(StreamNotReady);
      }
      var ok := stream.Send(Ack(Some(AckBody(messageId, broadcastId))), up);
      return if ok then None else Some(SendFailed);
    }
  }

  // ----- publishing one message again

  /** One call of PublishIngress, on whatever stream the client then has. */
  datatype Posting = Posting(
    stream: ClientStream, envelope: Envelope, id: Uuid, messageNow: Instant, now: Instant,
    ctxDone: bool, pick: bool, up: bool)

  /** The frame publishes the message in this form. */
  function Publishes(m: MessageValue): Request -> bool {
    (r: Request) => r.Ingress? && r.envelope.Some? && r.envelope.value.message == Some(m)
  }

  /** How many of the calls put a frame on the stream. */
  function Posted(posts: seq<Posting>, errs: seq<Option<SendError>>, stream: ClientStream): nat
    requires |posts| == |errs|
  {
    if posts == [] then 0
    else Posted(posts[..|posts| - 1], errs[..|errs| - 1], stream) +
         if errs[|errs| - 1] == None && posts[|posts| - 1].stream == stream then 1 else 0
  }

  lemma PostedNext(posts: seq<Posting>, errs: seq<Option<SendError>>, n: nat, err: Option<SendError>, x: ClientStream)
    requires |errs| == n < |posts|
    ensures posts[..0] == [] && Posted([], [], x) == 0
    ensures Posted(posts[..n + 1], errs + [err], x)
            == Posted(posts[..n], errs, x) + if err == None && posts[n].stream == x then 1 else 0
  {
    assert posts[..n + 1][..n] == posts[..n];
    assert (errs + [err])[..n] == errs;
  }

  /** The call got past the started check and the semaphore. */
  predicate Admits(err: Option<SendError>) {
    err == None || err == Some(SendFailed)
  }

  /** A single call, on the stream of that time. */
  method PostOne(client: Client, m: Message, p: Posting) returns (err: Option<SendError>)
    requires p.envelope.message == m && (client.Full() ==> p.ctxDone)
    modifies client`inflight, client`stream, m, p.stream
    ensures client.inflight == old(client.inflight)
    ensures Grown(old(p.stream.sent), p.stream.sent, if err == None then 1 else 0, Publishes(m.Value()))
    ensures m.Value() == if Admits(err) then NormalizedMessage(old(m.Value()), p.id, p.messageNow) else old(m.Value())
  {
    client.stream := p.stream;
    err := client.PublishIngress(p.envelope, p.id, p.messageNow, p.now, p.ctxDone, p.pick, p.up);
    assert err.Some? ==> err.value.SendFailed? || err.value.ContextDone? || err.value.NotStarted?;
  }

  lemma NormalStays(m: MessageValue, id: Uuid, t: Instant, id': Uuid, t': Instant)
    ensures NormalizedMessage(NormalizedMessage(m, id, t), id', t') == NormalizedMessage(m, id, t)
    ensures NormalizedMessage(m, id, t).requestId != ""
    ensures m.requestId != "" ==> NormalizedMessage(m, id, t).requestId == m.requestId
  {
    assert VERSION != "";
  }

  /** The first call that was admitted; `|errs|` when none was. */
  function FirstAdmitted(errs: seq<Option<SendError>>): (f: nat)
    ensures f <= |errs| && (f < |errs| ==> Admits(errs[f])) && forall i :: 0 <= i < f ==> !Admits(errs[i])
  {
    if errs == [] then 0
    else var n := |errs| - 1;
         var f := FirstAdmitted(errs[..n]);
         if f < n then f else if Admits(errs[n]) then n else n + 1
  }

  lemma FirstNext(errs: seq<Option<SendError>>, err: Option<SendError>)
    ensures FirstAdmitted(errs + [err])
         == if FirstAdmitted(errs) < |errs| || Admits(err) then FirstAdmitted(errs) else |errs| + 1
  {
    assert (errs + [err])[..|errs|] == errs;
  }

  /** The message is as it was, or as the normalisation of call `f` left it. */
  predicate SettledBy(was: MessageValue, m: MessageValue, posts: seq<Posting>, f: nat) {
    m == if f < |posts| then NormalizedMessage(was, posts[f].id, posts[f].messageNow) else was
  }

  /**
   One message published any number of times, in any envelopes, over any reconnects and with any failures:
   all frames, on whatever streams, carry the one form that the first admitted call gave the message.
   */
  method Republish(client: Client, m: Message, posts: seq<Posting>) returns (errs: seq<Option<SendError>>)
    requires client.Full() ==> forall i :: 0 <= i < |posts| ==> posts[i].ctxDone
    requires forall i :: 0 <= i < |posts| ==> posts[i].envelope.message == m
    modifies client`inflight, client`stream, m, set i | 0 <= i < |posts| :: posts[i].stream
    ensures |errs| == |posts| && client.inflight == old(client.inflight)
    ensures SettledBy(old(m.Value()), m.Value(), posts, FirstAdmitted(errs))
    ensures FirstAdmitted(errs) < |errs| ==> m.requestId != ""
    ensures old(m.requestId) != "" ==> m.requestId == old(m.requestId)
    ensures forall i :: 0 <= i < |posts| ==>
              var x := posts[i].stream;
              Grown(old(x.sent), x.sent, Posted(posts, errs, x), Publishes(m.Value()))
  {
    hide Grown, Posted, NormalizedMessage, SettledBy, Admits;
    errs := [];
    ghost var was := m.Value();
    NoneYet(was, posts);
    forall k | 0 <= k < |posts|
      ensures var x := posts[k].stream;
              Grown(x.sent, x.sent, Posted(posts[..0], [], x), Publishes(was)) && Posted(posts[..0], [], x) == 0
    {
      PostedNext(posts, [], 0, None, posts[k].stream);
      GrownNone(posts[k].stream.sent, Publishes(was));
    }
    for i := 0 to |posts|
      invariant |errs| == i && client.inflight == old(client.inflight)
      invariant SettledBy(was, m.Value(), posts[..i], FirstAdmitted(errs))
      invariant forall k :: 0 <= k < |posts| ==>
                  var x := posts[k].stream;
                  && Grown(old(x.sent), x.sent, Posted(posts[..i], errs, x), Publishes(m.Value()))
                  && (FirstAdmitted(errs) == i ==> Posted(posts[..i], errs, x) == 0)
    {
      ghost var before := m.Value();
      label Before:
      var err := PostOne(client, m, posts[i]);
      SettledNext(was, before, m.Value(), posts, errs, err);
      forall k | 0 <= k < |posts|
        ensures var x := posts[k].stream;
                && Grown(old(x.sent), x.sent, Posted(posts[..i + 1], errs + [err], x), Publishes(m.Value()))
                && (FirstAdmitted(errs + [err]) == i + 1 ==> Posted(posts[..i + 1], errs + [err], x) == 0)
      {
        var x := posts[k].stream;
        GrownNone(x.sent, Publishes(m.Value()));
        PostGrows(old(x.sent), old@Before(x.sent), x.sent, posts, errs, err, x, before, m.Value());
      }
      errs := errs + [err];
    }
    assert posts[..|posts|] == posts;
    SettledId(was, m.Value(), posts, FirstAdmitted(errs));
  }

  /** One stream's history over one call. */
  lemma PostGrows(was: seq<Request>, mid: seq<Request>, now: seq<Request>, posts: seq<Posting>,
                  errs: seq<Option<SendError>>, err: Option<SendError>, x: ClientStream, m: MessageValue, m': MessageValue)
    requires |errs| < |posts|
    requires Grown(was, mid, Posted(posts[..|errs|], errs, x), Publishes(m))
    requires Grown(mid, now, if err == None && posts[|errs|].stream == x then 1 else 0, Publishes(m'))
    requires FirstAdmitted(errs) == |errs| ==> Posted(posts[..|errs|], errs, x) == 0
    requires FirstAdmitted(errs) < |errs| ==> m' == m
    ensures Grown(was, now, Posted(posts[..|errs| + 1], errs + [err], x), Publishes(m'))
    ensures FirstAdmitted(errs + [err]) == |errs| + 1 ==> Posted(posts[..|errs| + 1], errs + [err], x) == 0
  {
    hide Grown, Posted, Admits;
    PostedNext(posts, errs, |errs|, err, x);
    FirstNext(errs, err);
    SentIsAdmitted(err);
    GrownMore(was, mid, now, Posted(posts[..|errs|], errs, x), if err == None && posts[|errs|].stream == x then 1 else 0,
              Publishes(m), Publishes(m'));
  }

  lemma NoneYet(m: MessageValue, posts: seq<Posting>)
    ensures FirstAdmitted([]) == 0 && SettledBy(m, m, posts[..0], 0)
  {
  }

  lemma SentIsAdmitted(err: Option<SendError>)
    ensures err == None ==> Admits(err)
  {
  }

  /** The next call settles the message if it is the first admitted, and leaves a settled one alone. */
  lemma SettledNext(was: MessageValue, m: MessageValue, m': MessageValue, posts: seq<Posting>,
                    errs: seq<Option<SendError>>, err: Option<SendError>)
    requires |errs| < |posts| && SettledBy(was, m, posts[..|errs|], FirstAdmitted(errs))
    requires m' == if Admits(err) then NormalizedMessage(m, posts[|errs|].id, posts[|errs|].messageNow) else m
    ensures SettledBy(was, m', posts[..|errs| + 1], FirstAdmitted(errs + [err]))
    ensures FirstAdmitted(errs) < |errs| ==> m' == m
    ensures FirstAdmitted(errs) == |errs| && !Admits(err) ==> m' == m
  {
    hide NormalizedMessage;
    FirstNext(errs, err);
    var f := FirstAdmitted(errs);
    if f < |errs| {
      NormalStays(was, posts[f].id, posts[f].messageNow, posts[|errs|].id, posts[|errs|].messageNow);
    }
  }

  lemma SettledId(was: MessageValue, m: MessageValue, posts: seq<Posting>, f: nat)
    requires SettledBy(was, m, posts, f)
    ensures f < |posts| ==> m.requestId != ""
    ensures was.requestId != "" ==> m.requestId == was.requestId
  {
    if f < |posts| {
      NormalStays(was, posts[f].id, posts[f].messageNow, posts[f].id, posts[f].messageNow);
    }
  }

  // ----- acknowledging

  /** A delivery or broadcast with its write-once acknowledgement. */
  class Delivery {
    const kind: Kind
    const ackId: string
    var once: bool
    var ackErr: Option<SendError>

    constructor (kind: Kind, arrival: Arrival)
      ensures this.kind == kind && ackId == arrival.ackId && !once && ackErr == None
    {
      this.kind, this.ackId := kind, arrival.ackId;
      once, ackErr := false, None;
    }

    /** The frame this promise stands for. */
    function Body(): AckBody {
      if kind.Direct? then AckBody(ackId, "") else AckBody("", ackId)
    }

    /** The first call decides; every later one returns the same result and sends nothing. */
    method Ack(client: Client, ctxDone: bool, up: bool) returns (err: Option<SendError>)
      modifies this, client.stream
      ensures once && err == ackErr && client.stream == old(client.stream)
      ensures old(once) ==>
                ackErr == old(ackErr) && (client.stream != null ==> client.stream.sent == old(client.stream.sent))
      ensures !old(once) && ackId == "" ==>
                err == None && (client.stream != null ==> client.stream.sent == old(client.stream.sent))
      ensures !old(once) && ackId != "" ==>
                && (err == None <==> !ctxDone && client.stream != null && up)
                && (client.stream != null ==>
                      client.stream.sent == old(client.stream.sent) +
                        if err != None then []
                        else if kind.Direct? then [Request.Ack(Some(AckBody(ackId, "")))]
                        else [Request.Ack(Some(AckBody("", ackId)))])
    {
      if !once {
        once := true;
        if ackId == "" {
          ackErr := None;
        } else if kind.Direct? {
          ackErr := client.SendAck(ackId, "", ctxDone, up);
        } else {
          ackErr := client.SendAck("", ackId, ctxDone, up);
        }
      }
      err := ackErr;
    }
  }

  /** Any number of Ack calls: at most one frame, and one result for all of them. */
  method AckRepeatedly(d: Delivery, client: Client, calls: seq<(bool, bool)>) returns (errs: seq<Option<SendError>>)
    requires !d.once
    modifies d, client.stream
    ensures |errs| == |calls| && forall i :: 0 <= i < |errs| ==> errs[i] == d.ackErr
    ensures client.stream == old(client.stream)
    ensures client.stream != null ==>
              client.stream.sent == old(client.stream.sent) +
                if calls != [] && d.ackId != "" && d.ackErr == None then [Request.Ack(Some(d.Body()))] else []
  {
    errs := [];
    for i := 0 to |calls|
      invariant |errs| == i && forall j :: 0 <= j < i ==> errs[j] == d.ackErr
      invariant d.once <==> i > 0
      invariant client.stream == old(client.stream)
      invariant client.stream != null ==>
                  client.stream.sent == old(client.stream.sent) +
                    if i > 0 && d.ackId != "" && d.ackErr == None then [Request.Ack(Some(d.Body()))] else []
    {
      var err := d.Ack(client, calls[i].0, calls[i].1);
      errs := errs + [err];
    }
  }
}
