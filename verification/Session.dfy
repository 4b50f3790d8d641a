/** The server: one receive loop per stream, calling a handler, and the session's senders. */
module Sessions {
  import opened Common
  import opened Envelopes
  import opened Frames

  datatype RegisterMeta = RegisterMeta(nodeId: string, ns: string, version: string)

  datatype Callback =
    | OnRegister(meta: RegisterMeta)
    | OnIngress(envelope: EnvelopeValue)
    | OnAck(ack: AckBody)
    | OnHeartbeat(nonce: string)
    | OnClose

  /** Why the loop returned. */
  datatype Reason = RecvFailed | RegisterRequired | HandlerFailed

  datatype Phase = Opening | Running | Ended(reason: Reason)

  /** One session: where its loop is, the frames it has read, the callbacks it has made. */
  datatype Session = Session(phase: Phase, read: seq<Request>, calls: seq<Callback>)

  const NEW_SESSION := Session(Opening, [], [])

  function MetaOf(info: RegisterInfo): RegisterMeta {
    RegisterMeta(info.nodeId, info.ns, info.bridgeVersion)
  }

  /** What a frame read after registration makes the loop call: nothing or one callback. */
  function Reaction(r: Request): (cbs: seq<Callback>)
    ensures |cbs| <= 1
  {
    match r
    case Register(_) => []
    case Ingress(e) => if e.Some? then [OnIngress(e.value)] else []
    case Ack(a) => if a.Some? then [OnAck(a.value)] else []
    case Heartbeat(n) => [OnHeartbeat(if n.Some? then n.value else "")]
    case Blank => []
  }

  function Reactions(rs: seq<Request>): seq<Callback> {
    FlatMap(rs, Reaction)
  }

  /** The callback that reading `r` causes, if any. */
  function Due(s: Session, r: Request): seq<Callback> {
    match s.phase
    case Opening => if r.Register? && r.info.Some? then [OnRegister(MetaOf(r.info.value))] else []
    case Running => Reaction(r)
    case Ended(_) => []
  }

  /** The loop reads `r`; `ok` is what the handler answers if it is called. */
  function Serve(s: Session, r: Request, ok: bool): Session {
    var due := Due(s, r);
    var t := s.(read := s.read + [r], calls := s.calls + due);
    match s.phase
    case Opening =>
      if due == [] then t.(phase := Ended(RegisterRequired))
      else if ok then t.(phase := Running)
      else t.(phase := Ended(HandlerFailed))
    case Running =>
      if due == [] || ok then t
      else t.(phase := Ended(HandlerFailed), calls := t.calls + [OnClose])
    case Ended(_) => s
  }

  /** Recv returns an error. */
  function Hangup(s: Session): Session {
    match s.phase
    case Opening => s.(phase := Ended(RecvFailed))
    case Running => s.(phase := Ended(RecvFailed), calls := s.calls + [OnClose])
    case Ended(_) => s
  }

  // ----- what a session's callbacks look like, whatever it read and whatever the handler answered

  predicate Opens(read: seq<Request>) {
    read != [] && read[0].Register? && read[0].info.Some?
  }

  function Opened(read: seq<Request>): seq<Callback>
    requires Opens(read)
  {
    [OnRegister(MetaOf(read[0].info.value))]
  }

  /**
   The whole callback trace in terms of the frames read: nothing; or a refused registration alone;
   or the registration, the reactions to the later frames in order, and OnClose exactly when the
   loop is over. Only the last frame read can have made the handler fail.
   */
  predicate Shaped(s: Session) {
    match s.phase
    case Opening => s.read == [] && s.calls == []
    case Running => Opens(s.read) && s.calls == Opened(s.read) + Reactions(s.read[1..])
    case Ended(RecvFailed) =>
      if s.read == [] then s.calls == []
      else Opens(s.read) && s.calls == Opened(s.read) + Reactions(s.read[1..]) + [OnClose]
    case Ended(RegisterRequired) => |s.read| == 1 && !Opens(s.read) && s.calls == []
    case Ended(HandlerFailed) =>
      && Opens(s.read)
      && if |s.read| == 1 then s.calls == Opened(s.read)
         else && Reaction(s.read[|s.read| - 1]) != []
              && s.calls == Opened(s.read) + Reactions(s.read[1..]) + [OnClose]
  }

  lemma OpeningShaped(s: Session, r: Request, ok: bool)
    requires Shaped(s) && s.phase.Opening?
    ensures Shaped(Serve(s, r, ok))
  {
    NoReactions();
    hide Reactions, Reaction;
    assert s.read + [r] == [r] && [r][1..] == [];
    assert s.calls + Due(s, r) == Due(s, r);
    assert Due(s, r) != [] ==> Opened([r]) + [] == Due(s, r);
  }

  /** The reactions to one frame more. */
  lemma ReactionsNext(read: seq<Request>, r: Request)
    requires Opens(read)
    ensures Opens(read + [r]) && Opened(read + [r]) == Opened(read)
    ensures Reactions((read + [r])[1..]) == Reactions(read[1..]) + Reaction(r)
  {
    hide FlatMap, Reaction;
    assert (read + [r])[1..] == read[1..] + [r];
    FlatMapPush(read[1..], r, Reaction);
  }

  lemma RunningShaped(s: Session, r: Request, ok: bool)
    requires Shaped(s) && s.phase.Running?
    ensures Shaped(Serve(s, r, ok))
  {
    ReactionsNext(s.read, r);
    hide Opens, Opened, Reactions, Reaction;
    assert Opened(s.read) + Reactions(s.read[1..]) + Reaction(r) == Opened(s.read) + (Reactions(s.read[1..]) + Reaction(r));
  }

  lemma ServeShaped(s: Session, r: Request, ok: bool)
    requires Shaped(s)
    ensures Shaped(Serve(s, r, ok))
  {
    hide Shaped;
    match s.phase
    case Opening => OpeningShaped(s, r, ok);
    case Running => RunningShaped(s, r, ok);
    case Ended(_) =>
  }

  lemma NoReactions()
    ensures Reactions([]) == []
  {
  }

  lemma HangupShaped(s: Session)
    requires Shaped(s)
    ensures Shaped(Hangup(s))
  {
  }

  /** OnRegister comes first and once, OnClose last and at most once, and a failed OnRegister has no OnClose. */
  lemma CallsBracketed(s: Session)
    requires Shaped(s)
    ensures forall i :: 0 <= i < |s.calls| ==> (s.calls[i].OnRegister? <==> i == 0)
    ensures forall i :: 0 <= i < |s.calls| && s.calls[i].OnClose? ==> i == |s.calls| - 1 && s.phase.Ended?
    ensures s.phase.Ended? && |s.calls| > 1 ==> s.calls[|s.calls| - 1].OnClose?
    ensures s.phase.Ended? && |s.calls| == 1 ==> s.phase.reason == HandlerFailed && |s.read| == 1
  {
    if Opens(s.read) {
      ReactionsAreInner(s.read[1..]);
    }
  }

  lemma {:induction false} ReactionsAreInner(rs: seq<Request>)
    ensures forall cb :: cb in Reactions(rs) ==> !cb.OnRegister? && !cb.OnClose?
  {
    if rs != [] {
      ReactionsAreInner(rs[..|rs| - 1]);
    }
  }

  // ----- what the frames of one session are handed on as

  function IngressOf(r: Request): seq<EnvelopeValue> {
    if r.Ingress? && r.envelope.Some? then [r.envelope.value] else []
  }

  function HandedIngress(cb: Callback): seq<EnvelopeValue> {
    if cb.OnIngress? then [cb.envelope] else []
  }

  function AckOf(r: Request): seq<AckBody> {
    if r.Ack? && r.ack.Some? then [r.ack.value] else []
  }

  function HandedAck(cb: Callback): seq<AckBody> {
    if cb.OnAck? then [cb.ack] else []
  }

  /** A heartbeat without a body has the empty nonce. */
  function NonceOf(r: Request): seq<string> {
    if !r.Heartbeat? then [] else if r.nonce == None then [""] else [r.nonce.value]
  }

  function HandedNonce(cb: Callback): seq<string> {
    if cb.OnHeartbeat? then [cb.nonce] else []
  }

  /** The frame with its body, when it is one to be handed on. */
  function Meant(r: Request): seq<Request> {
    if (r.Ingress? && r.envelope.Some?) || (r.Ack? && r.ack.Some?) || (r.Heartbeat? && r.nonce.Some?) then [r]
    else if r == Heartbeat(None) then [Heartbeat(Some(""))]
    else []
  }

  /** The frame that a callback hands on. */
  function SourceOf(cb: Callback): seq<Request> {
    match cb
    case OnRegister(_) => []
    case OnIngress(e) => [Ingress(Some(e))]
    case OnAck(a) => [Ack(Some(a))]
    case OnHeartbeat(n) => [Heartbeat(Some(n))]
    case OnClose => []
  }

  /** If each reaction hands on `f` of its frame, and only reactions do, then the session does so in order. */
  lemma SessionHands<T>(s: Session, f: Request -> seq<T>, h: Callback -> seq<T>)
    requires Shaped(s) && Opens(s.read)
    requires forall r: Request {:trigger f(r)} :: FlatMap(Reaction(r), h) == f(r)
    requires h(OnClose) == [] && h(Opened(s.read)[0]) == [] && f(s.read[0]) == []
    ensures FlatMap(s.calls, h) == FlatMap(s.read, f)
  {
    hide FlatMap;
    var first, rest := Opened(s.read), s.read[1..];
    forall i | 0 <= i < |rest| ensures FlatMap(Reaction(rest[i]), h) == f(rest[i]) {
    }
    FlatMapTwice(rest, Reaction, h, f);
    assert s.read == [s.read[0]] + rest && first == [first[0]];
    FlatMapAppend([s.read[0]], rest, f);
    FlatMapFew(s.read[0], f);
    FlatMapFew(first[0], h);
    FlatMapAppend(first, Reactions(rest), h);
    FlatMapPush(first + Reactions(rest), OnClose, h);
    if |s.read| == 1 {
      NoReactions();
      assert rest == [] && first + Reactions(rest) == first;
    }
  }

  /** One callback or none: it hands on the body of its own frame. */
  lemma ReactionHands(r: Request)
    ensures FlatMap(Reaction(r), HandedIngress) == IngressOf(r)
    ensures FlatMap(Reaction(r), HandedAck) == AckOf(r)
    ensures FlatMap(Reaction(r), HandedNonce) == NonceOf(r)
    ensures FlatMap(Reaction(r), SourceOf) == Meant(r)
  {
    hide FlatMap;
    var cb := if Reaction(r) == [] then OnClose else Reaction(r)[0];
    assert Reaction(r) == [] || Reaction(r) == [cb];
    FlatMapFew(cb, HandedIngress);
    FlatMapFew(cb, HandedAck);
    FlatMapFew(cb, HandedNonce);
    FlatMapFew(cb, SourceOf);
  }

  /**
   What the callbacks of a session are, in terms of the frames read: the registration's own data, then every
   non-nil ingress, every non-nil ack and every heartbeat, each with its body, in the order read across all
   three kinds. Without a proper registration there are none.
   */
  predicate HandsOn(read: seq<Request>, calls: seq<Callback>) {
    if read != [] && read[0].Register? && read[0].info.Some? then
      var info := read[0].info.value;
      && calls != [] && calls[0] == OnRegister(RegisterMeta(info.nodeId, info.ns, info.bridgeVersion))
      && FlatMap(calls, HandedIngress) == FlatMap(read, IngressOf)
      && FlatMap(calls, HandedAck) == FlatMap(read, AckOf)
      && FlatMap(calls, HandedNonce) == FlatMap(read, NonceOf)
      && FlatMap(calls, SourceOf) == FlatMap(read, Meant)
    else |read| <= 1 && calls == []
  }

  lemma SessionHandsOn(s: Session)
    requires Shaped(s)
    ensures HandsOn(s.read, s.calls)
  {
    if Opens(s.read) {
      hide FlatMap;
      SessionHandsBodies(s);
      SessionHandsNonces(s);
    }
  }

  lemma SessionHandsBodies(s: Session)
    requires Shaped(s) && Opens(s.read)
    ensures FlatMap(s.calls, HandedIngress) == FlatMap(s.read, IngressOf)
    ensures FlatMap(s.calls, HandedAck) == FlatMap(s.read, AckOf)
  {
    hide FlatMap, Shaped, Reaction;
    forall r: Request
      ensures FlatMap(Reaction(r), HandedIngress) == IngressOf(r) && FlatMap(Reaction(r), HandedAck) == AckOf(r)
    {
      ReactionHands(r);
    }
    SessionHands(s, IngressOf, HandedIngress);
    SessionHands(s, AckOf, HandedAck);
  }

  lemma SessionHandsNonces(s: Session)
    requires Shaped(s) && Opens(s.read)
    ensures FlatMap(s.calls, HandedNonce) == FlatMap(s.read, NonceOf)
    ensures FlatMap(s.calls, SourceOf) == FlatMap(s.read, Meant)
  {
    hide FlatMap, Shaped, Reaction;
    forall r: Request
      ensures FlatMap(Reaction(r), HandedNonce) == NonceOf(r) && FlatMap(Reaction(r), SourceOf) == Meant(r)
    {
      ReactionHands(r);
    }
    SessionHands(s, NonceOf, HandedNonce);
    SessionHands(s, Meant, SourceOf);
  }

  /** The handler is handed exactly the ingress envelopes read, in the order read. */
  lemma SessionHandsIngressInOrder(s: Session)
    requires Shaped(s)
    ensures FlatMap(s.calls, HandedIngress) == if Opens(s.read) then FlatMap(s.read, IngressOf) else []
  {
    SessionHandsOn(s);
  }

  /** Likewise the acknowledgements. */
  lemma SessionHandsAcksInOrder(s: Session)
    requires Shaped(s)
    ensures FlatMap(s.calls, HandedAck) == if Opens(s.read) then FlatMap(s.read, AckOf) else []
  {
    SessionHandsOn(s);
  }

  // ----- the loop as a program

  /** A whole session against a fixed script of frames: `verdict` answers each callback from the history so far. */
  function Play(s: Session, frames: seq<Request>, history: seq<Callback>, verdict: seq<Callback> -> bool): Session
    decreases |frames|
  {
    if s.phase.Ended? then s
    else if frames == [] then Hangup(s)
    else Play(Serve(s, frames[0], verdict(history + s.calls + Due(s, frames[0]))), frames[1..], history, verdict)
  }

  lemma {:induction false} PlayShaped(s: Session, frames: seq<Request>, history: seq<Callback>,
                                      verdict: seq<Callback> -> bool)
    requires Shaped(s)
    ensures var t := Play(s, frames, history, verdict);
            Shaped(t) && t.phase.Ended? && s.read <= t.read && t.read <= s.read + frames
    ensures Play(s, frames, history, verdict).phase == Ended(RecvFailed) && !s.phase.Ended?
            ==> Play(s, frames, history, verdict).read == s.read + frames
    decreases |frames|
  {
    hide Shaped;
    if s.phase.Ended? {
    } else if frames == [] {
      HangupShaped(s);
      assert s.read + frames == s.read;
    } else {
      var ok := verdict(history + s.calls + Due(s, frames[0]));
      var s' := Serve(s, frames[0], ok);
      ServeShaped(s, frames[0], ok);
      ServeReads(s, frames[0], ok);
      hide Serve, Due;
      PlayShaped(s', frames[1..], history, verdict);
      assert s'.read + frames[1..] == s.read + frames;
    }
  }

  /** How many callbacks the handler's verdict counts for: all but OnClose. */
  function Judged(s: Session): nat {
    if s.calls != [] && s.calls[|s.calls| - 1].OnClose? then |s.calls| - 1 else |s.calls|
  }

  /** The handler accepted every callback but the last when the session ended on it, and only then refused that. */
  predicate Heeded(s: Session, history: seq<Callback>, verdict: seq<Callback> -> bool) {
    && (s.phase == Ended(HandlerFailed) ==> Judged(s) > 0)
    && forall n {:trigger s.calls[..n]} :: 0 < n <= Judged(s) ==>
         (verdict(history + s.calls[..n]) <==> !(s.phase == Ended(HandlerFailed) && n == Judged(s)))
  }

  /** A trace without OnClose, of accepted callbacks only. */
  predicate AllAccepted(calls: seq<Callback>, history: seq<Callback>, verdict: seq<Callback> -> bool) {
    && (calls != [] ==> !calls[|calls| - 1].OnClose?)
    && forall n {:trigger calls[..n]} :: 0 < n <= |calls| ==> verdict(history + calls[..n])
  }

  lemma HeededRunning(s: Session, history: seq<Callback>, verdict: seq<Callback> -> bool)
    requires Shaped(s) && !s.phase.Ended?
    ensures Heeded(s, history, verdict) <==> AllAccepted(s.calls, history, verdict)
  {
    CallsBracketed(s);
    hide Shaped;
  }

  /** One callback more, and OnClose after it when it ended a running session. */
  lemma NextHeeded(t: Session, calls: seq<Callback>, cb: Callback, history: seq<Callback>, verdict: seq<Callback> -> bool)
    requires AllAccepted(calls, history, verdict) && !cb.OnClose?
    requires verdict(history + calls + [cb]) <==> t.phase != Ended(HandlerFailed)
    requires t.calls == calls + [cb] || (t.calls == calls + [cb] + [OnClose] && t.phase.Ended?)
    ensures Heeded(t, history, verdict)
  {
    assert history + (calls + [cb]) == history + calls + [cb];
    assert t.calls[..|calls| + 1] == calls + [cb];
    assert Judged(t) == |calls| + 1;
    forall n | 0 < n <= |calls| ensures t.calls[..n] == calls[..n] {
    }
  }

  lemma ServeHeeded(s: Session, r: Request, history: seq<Callback>, verdict: seq<Callback> -> bool)
    requires Shaped(s) && !s.phase.Ended? && Heeded(s, history, verdict)
    ensures Heeded(Serve(s, r, verdict(history + s.calls + Due(s, r))), history, verdict)
  {
    HeededRunning(s, history, verdict);
    hide Shaped;
    var due := Due(s, r);
    var ok := verdict(history + s.calls + due);
    var t := Serve(s, r, ok);
    if due == [] {
      assert t.calls == s.calls;
    } else {
      assert due == [due[0]] && !due[0].OnClose?;
      hide Heeded;
      NextHeeded(t, s.calls, due[0], history, verdict);
    }
  }

  lemma HangupHeeded(s: Session, history: seq<Callback>, verdict: seq<Callback> -> bool)
    requires Shaped(s) && !s.phase.Ended? && Heeded(s, history, verdict)
    ensures Heeded(Hangup(s), history, verdict)
  {
    CallsBracketed(s);
    hide Shaped;
    var t := Hangup(s);
    forall n | 0 < n <= |s.calls| ensures t.calls[..n] == s.calls[..n] {
    }
  }

  /** The session goes on past every accepted callback, and ends at the first refused one. */
  lemma {:induction false} PlayHeeds(s: Session, frames: seq<Request>, history: seq<Callback>,
                                     verdict: seq<Callback> -> bool)
    requires Shaped(s) && Heeded(s, history, verdict)
    ensures Heeded(Play(s, frames, history, verdict), history, verdict)
    decreases |frames|
  {
    hide Shaped, Heeded;
    if !s.phase.Ended? && frames == [] {
      HangupHeeded(s, history, verdict);
    } else if !s.phase.Ended? {
      var ok := verdict(history + s.calls + Due(s, frames[0]));
      ServeShaped(s, frames[0], ok);
      ServeHeeded(s, frames[0], history, verdict);
      hide Serve, Due;
      PlayHeeds(Serve(s, frames[0], ok), frames[1..], history, verdict);
    }
  }

  lemma ServeReads(s: Session, r: Request, ok: bool)
    requires !s.phase.Ended?
    ensures Serve(s, r, ok).read == s.read + [r]
  {
  }

  /** The receiving end of a stream: frames still to come, after which Recv fails; and the frames sent back. */
  class ServerStream {
    var inbox: seq<Request>
    var outbox: seq<Response>

    constructor (frames: seq<Request>)
      ensures inbox == frames && outbox == []
    {
      inbox, outbox := frames, [];
    }

    method Recv() returns (r: Option<Request>)
      modifies `inbox
      ensures r.None? <==> old(inbox) == []
      ensures r.Some? ==> old(inbox) == [r.value] + inbox
      ensures r.None? ==> inbox == old(inbox)
    {
      if inbox == [] {
        return None;
      }
      r := Some(inbox[0]);
      inbox := inbox[1..];
    }

    /** `up` says whether the transport accepts the frame. */
    method Send(r: Response, up: bool) returns (ok: bool)
      modifies `outbox
      ensures ok == up && outbox == if up then old(outbox) + [r] else old(outbox)
    {
      if up {
        outbox := outbox + [r];
      }
      ok := up;
    }
  }

  /** A handler: an arbitrary verdict on each callback, given everything it was called with before. */
  class Handler {
    var trace: seq<Callback>
    const verdict: seq<Callback> -> bool

    constructor (verdict: seq<Callback> -> bool)
      ensures trace == [] && this.verdict == verdict
    {
      this.trace, this.verdict := [], verdict;
    }

    method Call(cb: Callback) returns (ok: bool)
      modifies `trace
      ensures trace == old(trace) + [cb] && ok == verdict(trace)
    {
      trace := trace + [cb];
      ok := verdict(trace);
    }
  }

  lemma StartHeeded(history: seq<Callback>, verdict: seq<Callback> -> bool)
    ensures Heeded(NEW_SESSION, history, verdict)
  {
  }

  lemma WholeSession(frames: seq<Request>, history: seq<Callback>, verdict: seq<Callback> -> bool)
    ensures var t := Play(NEW_SESSION, frames, history, verdict);
            && Shaped(t) && Heeded(t, history, verdict) && HandsOn(t.read, t.calls)
            && (t.phase == Ended(RegisterRequired) <==>
                  frames != [] && !(frames[0].Register? && frames[0].info.Some?))
  {
    hide Heeded, HandsOn, Play, FlatMap;
    StartHeeded(history, verdict);
    PlayShaped(NEW_SESSION, frames, history, verdict);
    SessionHandsOn(Play(NEW_SESSION, frames, history, verdict));
    PlayHeeds(NEW_SESSION, frames, history, verdict);
  }

  /** The session loop; it returns why it ended. OnClose is the deferred call of the registered part. */
  method Stream(stream: ServerStream, handler: Handler) returns (err: Reason)
    modifies stream`inbox, handler
    ensures var t := Play(NEW_SESSION, old(stream.inbox), old(handler.trace), handler.verdict);
            && t.phase == Ended(err)
            && handler.trace == old(handler.trace) + t.calls
            && old(stream.inbox) == t.read + stream.inbox
            && Shaped(t) && Heeded(t, old(handler.trace), handler.verdict)
            && HandsOn(t.read, t.calls)
    ensures err == RegisterRequired <==>
              old(stream.inbox) != [] && !(old(stream.inbox)[0].Register? && old(stream.inbox)[0].info.Some?)
  {
    hide Shaped, Heeded, HandsOn;
    ghost var frames, history := stream.inbox, handler.trace;
    WholeSession(frames, history, handler.verdict);
    var first := stream.Recv();
    if first.None? {
      return RecvFailed;
    }
    if !first.value.Register? || first.value.info.None? {
      assert frames == [frames[0]] + frames[1..];
      return RegisterRequired;
    }
    ghost var s := NEW_SESSION;
    var meta := MetaOf(first.value.info.value);
    assert history + s.calls + Due(s, frames[0]) == history + [OnRegister(meta)];
    var ok := handler.Call(OnRegister(meta));
    s := Serve(s, first.value, ok);
    assert [] + [OnRegister(meta)] == [OnRegister(meta)];
    if !ok {
      return HandlerFailed;
    }
    err := Loop(stream, handler, s, history);
    var _ := handler.Call(OnClose);
  }

  /** The switch on one frame after registration: at most one callback. */
  method Dispatch(req: Request, handler: Handler) returns (ok: bool)
    modifies handler`trace
    ensures handler.trace == old(handler.trace) + Reaction(req)
    ensures ok == (Reaction(req) == [] || handler.verdict(handler.trace))
  {
    ok := true;
    match req {
      case Ingress(e) =>
        if e.Some? {
          ok := handler.Call(OnIngress(e.value));
        }
      case Ack(a) =>
        if a.Some? {
          ok := handler.Call(OnAck(a.value));
        }
      case Heartbeat(n) =>
        ok := handler.Call(OnHeartbeat(if n.Some? then n.value else ""));
      case Register(_) =>
      case Blank =>
    }
  }

  /** Playing one frame of a running session, in terms of the handler's trace after it. */
  lemma PlayNext(s: Session, r: Request, frames: seq<Request>, history: seq<Callback>, verdict: seq<Callback> -> bool)
    requires s.phase.Running?
    ensures var trace := history + s.calls + Reaction(r);
            var t := Serve(s, r, verdict(trace));
            && Play(s, [r] + frames, history, verdict) == Play(t, frames, history, verdict)
            && t.read == s.read + [r]
            && (Reaction(r) == [] || verdict(trace) ==> t.phase.Running? && history + t.calls == trace)
            && (Reaction(r) != [] && !verdict(trace) ==>
                  t.phase == Ended(HandlerFailed) && history + t.calls == trace + [OnClose])
  {
    assert ([r] + frames)[1..] == frames;
    assert history + (s.calls + Reaction(r)) == history + s.calls + Reaction(r);
  }

  /** The registered part of the loop, up to but not including the deferred OnClose. */
  method Loop(stream: ServerStream, handler: Handler, ghost s0: Session, ghost history: seq<Callback>)
    returns (err: Reason)
    requires s0.phase.Running? && handler.trace == history + s0.calls
    modifies stream`inbox, handler
    ensures var t := Play(s0, old(stream.inbox), history, handler.verdict);
            && t.phase == Ended(err)
            && handler.trace + [OnClose] == history + t.calls
            && s0.read + old(stream.inbox) == t.read + stream.inbox
  {
    hide Serve, Reaction, Due;
    ghost var s := s0;
    while true
      invariant s.phase.Running? && handler.trace == history + s.calls
      invariant Play(s, stream.inbox, history, handler.verdict) == Play(s0, old(stream.inbox), history, handler.verdict)
      invariant s0.read + old(stream.inbox) == s.read + stream.inbox
      decreases |stream.inbox|
    {
      var req := stream.Recv();
      if req.None? {
        return RecvFailed;
      }
      var ok := Dispatch(req.value, handler);
      PlayNext(s, req.value, stream.inbox, history, handler.verdict);
      assert s.read + ([req.value] + stream.inbox) == s.read + [req.value] + stream.inbox;
      s := Serve(s, req.value, handler.verdict(handler.trace));
      if !ok {
        return HandlerFailed;
      }
    }
  }

  // ----- sending on a session

  class ServerSession {
    const stream: ServerStream

    constructor (stream: ServerStream)
      ensures this.stream == stream
    {
      this.stream := stream;
    }

    /** The caller's envelope is copied by value, so normalising writes only to the shared message. */
    method SendDeliver(env: Envelope, id: Uuid, messageNow: Instant, now: Instant, up: bool) returns (ok: bool)
      modifies stream`outbox, env.message
      ensures env.message == old(env.message)
      ensures env.message != null ==> env.message.Value() == NormalizedMessage(old(env.message.Value()), id, messageNow)
      ensures ok == up
      ensures var sent := Deliver(Some(Normalized(old(env.Value()), id, messageNow, now)));
              stream.outbox == if up then old(stream.outbox) + [sent] else old(stream.outbox)
    {
      var copy := new Envelope.CopyOf(env);
      NormalizeEnvelope(copy, id, messageNow, now);
      ok := stream.Send(Deliver(Some(copy.Value())), up);
    }

    /** The broadcast id of the frame is left empty. */
    method SendBroadcast(env: Envelope, id: Uuid, messageNow: Instant, now: Instant, up: bool) returns (ok: bool)
      modifies stream`outbox, env.message
      ensures env.message == old(env.message)
      ensures env.message != null ==> env.message.Value() == NormalizedMessage(old(env.message.Value()), id, messageNow)
      ensures ok == up
      ensures var sent := Broadcast(Some(Normalized(old(env.Value()), id, messageNow, now)), "");
              stream.outbox == if up then old(stream.outbox) + [sent] else old(stream.outbox)
    {
      var copy := new Envelope.CopyOf(env);
      NormalizeEnvelope(copy, id, messageNow, now);
      ok := stream.Send(Broadcast(Some(copy.Value()), ""), up);
    }

    method SendHeartbeat(nonce: string, up: bool) returns (ok: bool)
      modifies stream`outbox
      ensures ok == up && stream.outbox == if up then old(stream.outbox) + [Pong(nonce)] else old(stream.outbox)
    {
      ok := stream.Send(Pong(nonce), up);
    }
  }

  /** One call of SendDeliver or SendBroadcast: on any session, with what uuid and clock would give it. */
  datatype Outgoing = Outgoing(
    session: ServerSession, broadcast: bool, envelope: Envelope, id: Uuid, messageNow: Instant, now: Instant, up: bool)

  /** How many of the calls put a frame on the stream. */
  function Accepted(sends: seq<Outgoing>, stream: ServerStream): nat {
    if sends == [] then 0
    else Accepted(sends[..|sends| - 1], stream) +
         if sends[|sends| - 1].up && sends[|sends| - 1].session.stream == stream then 1 else 0
  }

  /** The frame has the message in this form. */
  function Carries(m: MessageValue): Response -> bool {
    (r: Response) => (r.Deliver? || r.Broadcast?) && r.envelope.Some? && r.envelope.value.message == Some(m)
  }

  /** The message as the first call that normalises it leaves it. */
  function Settled(m: MessageValue, sends: seq<Outgoing>): MessageValue {
    if sends == [] then m else NormalizedMessage(m, sends[0].id, sends[0].messageNow)
  }

  lemma SettledStays(m: MessageValue, sends: seq<Outgoing>, n: nat)
    requires n < |sends|
    ensures NormalizedMessage(Settled(m, sends[..n]), sends[n].id, sends[n].messageNow) == Settled(m, sends[..n + 1])
    ensures n > 0 ==> Settled(m, sends[..n + 1]) == Settled(m, sends[..n])
  {
    assert VERSION != "";
  }

  /** A single call of the fan-out. */
  method SendOne(m: Message, s: Outgoing)
    requires s.envelope.message == m
    modifies m, s.session.stream`outbox
    ensures m.Value() == NormalizedMessage(old(m.Value()), s.id, s.messageNow)
    ensures var x := s.session.stream; Grown(old(x.outbox), x.outbox, if s.up then 1 else 0, Carries(m.Value()))
  {
    if s.broadcast {
      var _ := s.session.SendBroadcast(s.envelope, s.id, s.messageNow, s.now, s.up);
    } else {
      var _ := s.session.SendDeliver(s.envelope, s.id, s.messageNow, s.now, s.up);
    }
  }

  lemma AcceptedNext(sends: seq<Outgoing>, n: nat, x: ServerStream)
    requires n < |sends|
    ensures Accepted(sends[..0], x) == 0
    ensures Accepted(sends[..n + 1], x)
            == Accepted(sends[..n], x) + if sends[n].up && sends[n].session.stream == x then 1 else 0
  {
    assert sends[..n + 1][..n] == sends[..n];
  }

  /**
   One message fanned out in any number of envelopes, to any sessions, some more than once and some failing:
   every frame carries the one form that the first normalisation gave the message, so one request id,
   whatever identifiers the later ones were offered.
   */
  method FanOut(m: Message, sends: seq<Outgoing>)
    requires forall i :: 0 <= i < |sends| ==> sends[i].envelope.message == m
    modifies m, set i | 0 <= i < |sends| :: sends[i].session.stream
    ensures m.Value() == Settled(old(m.Value()), sends)
    ensures sends != [] ==> m.requestId != "" && (old(m.requestId) != "" ==> m.requestId == old(m.requestId))
    ensures forall i :: 0 <= i < |sends| ==>
              var x := sends[i].session.stream;
              Grown(old(x.outbox), x.outbox, Accepted(sends, x), Carries(m.Value()))
  {
    hide Accepted, Grown, Settled;
    ghost var was := m.Value();
    SettledOf(was, sends);
    forall k | 0 <= k < |sends|
      ensures var x := sends[k].session.stream; Grown(x.outbox, x.outbox, Accepted(sends[..0], x), Carries(was))
    {
      AcceptedNext(sends, k, sends[k].session.stream);
      GrownNone(sends[k].session.stream.outbox, Carries(was));
    }
    for i := 0 to |sends|
      invariant m.Value() == Settled(was, sends[..i])
      invariant forall k :: 0 <= k < |sends| ==>
                  var x := sends[k].session.stream;
                  Grown(old(x.outbox), x.outbox, Accepted(sends[..i], x), Carries(m.Value()))
    {
      SettledStays(was, sends, i);
      label Before:
      SendOne(m, sends[i]);
      forall k | 0 <= k < |sends|
        ensures var x := sends[k].session.stream;
                Grown(old(x.outbox), x.outbox, Accepted(sends[..i + 1], x), Carries(m.Value()))
      {
        var x := sends[k].session.stream;
        AcceptedNext(sends, i, x);
        if i == 0 {
          AcceptedNext(sends, 0, x);
        }
        GrownNone(x.outbox, Carries(m.Value()));
        var added := if sends[i].up && sends[i].session.stream == x then 1 else 0;
        GrownMore(old(x.outbox), old@Before(x.outbox), x.outbox, Accepted(sends[..i], x), added,
                  Carries(old@Before(m.Value())), Carries(m.Value()));
      }
    }
    assert sends[..|sends|] == sends;
  }

  lemma SettledOf(m: MessageValue, sends: seq<Outgoing>)
    ensures Settled(m, sends[..0]) == m
    ensures sends != [] ==> Settled(m, sends).requestId != ""
    ensures sends != [] && m.requestId != "" ==> Settled(m, sends).requestId == m.requestId
  {
  }
}
