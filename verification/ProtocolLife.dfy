/** The reconnect loop across generations: which stream, loops, contexts and errors belong together. */
module ProtocolLife {
  import opened Common
  import opened Protocol

  function BeatCount(): Loop -> nat {
    (l: Loop) => if l.alive then 1 else 0
  }

  function RunCount(k: Core): nat {
    if k.run.Idle? || k.run.Exited? then 0 else 1
  }

  /** Every connect is followed by its own cleanup before the next one; only a serving run has one open. */
  predicate Alternates(history: seq<Event>, serving: bool, loops: seq<Loop>) {
    && |history| == 2 * |loops| - (if serving then 1 else 0)
    && forall i {:trigger loops[i].gen} :: 0 <= i < |loops| ==>
         && history[2 * i] == Connected(loops[i].gen)
         && (2 * i + 1 < |history| ==> history[2 * i + 1] == CleanedUp(Some(loops[i].gen)))
  }

  /** Later loops have later streams and contexts. */
  predicate Ordered(loops: seq<Loop>, streams: nat, ctxs: nat) {
    && (forall i {:trigger loops[i].gen} :: 0 <= i < |loops| ==> loops[i].gen < streams && loops[i].ctx < ctxs)
    && (forall i, j {:trigger loops[i].gen, loops[j].gen} :: 0 <= i < j < |loops| ==> loops[i].gen < loops[j].gen)
    && (forall i, j {:trigger loops[i].ctx, loops[j].ctx} :: 0 <= i < j < |loops| ==> loops[i].ctx < loops[j].ctx)
  }

  /** The loops before the latest have ended or been told to. */
  predicate Past(loops: seq<Loop>, cancelled: set<nat>) {
    forall i {:trigger loops[i].consume} {:trigger loops[i].ctx} :: 0 <= i < |loops| - 1 ==>
      loops[i].consume.Finished? && loops[i].ctx in cancelled
  }

  /** The consume loop of the latest connect, and the error channel made with it. */
  predicate LatestConsume(recvErr: Option<seq<nat>>, l: Loop) {
    && (l.consume.InRecv? || l.consume.Failing? ==> l.consume.gen == l.gen)
    && recvErr.Some?
    && |recvErr.value| <= 1
    && (recvErr.value != [] ==> recvErr.value[0] == l.gen && l.consume.Finished?)
  }

  /** The latest connect: what the client holds is its own, until its cleanup. */
  predicate Latest(k: Core, l: Loop, streams: nat) {
    && LatestConsume(k.recvErr, l)
    && (!l.consume.Finished? ==> l.gen + 1 == streams)
    && (if k.run.Serving?
        then k.stream == Some(l.gen) && k.cancel == Some(l.ctx) && (l.ctx in k.cancelled ==> k.runDone)
        else l.ctx in k.cancelled && (!l.consume.Finished? ==> k.run.Exited? && k.stream.None?))
  }

  /** While a connect is under way its stream is the newest and its context belongs to no loop yet. */
  predicate Connecting(k: Core, loops: seq<Loop>, streams: nat, g: nat) {
    && k.stream == Some(g) && g + 1 == streams
    && k.ctxs > 0 && k.cancel == Some(k.ctxs - 1)
    && (k.ctxs - 1 in k.cancelled ==> k.runDone)
    && Ordered(loops, g, k.ctxs - 1)
  }

  /** The client's fields by themselves; `n` connects have succeeded. */
  predicate Fields(k: Core, n: nat, streams: nat) {
    && (k.started <==> n > 0)
    && (k.run.Idle? ==> n == 0 && k.stream.None? && streams == 0)
    && (n == 0 ==> k.recvErr.None? && !k.run.Serving?)
    && (k.stream.Some? ==> k.stream.value + 1 == streams)
    && (k.cancel.Some? ==> k.cancel.value < k.ctxs)
    && (forall x :: x in k.cancelled ==> x < k.ctxs)
    && (k.run.Exited? ==> k.runDone)
  }

  predicate Life(k: Core, loops: seq<Loop>, streams: nat) {
    && Fields(k, |loops|, streams)
    && Alternates(k.history, k.run.Serving?, loops)
    && Ordered(loops, streams, k.ctxs)
    && Past(loops, k.cancelled)
    && (loops != [] ==> Latest(k, loops[|loops| - 1], streams))
    && (k.run.Registering? ==> Connecting(k, loops, streams, k.run.gen))
    && (k.run.Launching? ==> Connecting(k, loops, streams, k.run.gen))
    && k.wg == RunCount(k) + Total(loops, BeatCount())
  }

  /** What a crash tells about the state it happened in. */
  predicate Crash(s: State) {
    match s.fault
    case None => true
    case Some(SendOnNil(_)) => s.core.stream.None?
    case Some(RecvOnNil(_)) => s.core.stream.None? && s.core.run.Exited?
    case Some(PushOnClosed(_)) => s.core.closed
  }

  predicate LifeInv(s: State) {
    Life(s.core, s.loops, |s.wire|) && Crash(s)
  }

  // ----- how each part follows a step

  lemma OrderedMore(loops: seq<Loop>, streams: nat, ctxs: nat, streams': nat, ctxs': nat)
    requires Ordered(loops, streams, ctxs) && streams <= streams' && ctxs <= ctxs'
    ensures Ordered(loops, streams', ctxs')
  {
  }

  lemma PastMore(loops: seq<Loop>, cancelled: set<nat>, cancelled': set<nat>)
    requires Past(loops, cancelled) && cancelled <= cancelled'
    ensures Past(loops, cancelled')
  {
  }

  lemma PushLoop(history: seq<Event>, loops: seq<Loop>, streams: nat, ctxs: nat, cancelled: set<nat>, l: Loop)
    requires Alternates(history, false, loops) && Ordered(loops, streams, ctxs) && Past(loops, cancelled)
    requires loops != [] ==> var last := loops[|loops| - 1]; last.consume.Finished? && last.ctx in cancelled
    requires streams == l.gen && ctxs == l.ctx
    ensures Alternates(history + [Connected(l.gen)], true, loops + [l])
    ensures Ordered(loops + [l], streams + 1, ctxs + 1)
    ensures Past(loops + [l], cancelled)
  {
  }

  lemma UpdateLoop(history: seq<Event>, serving: bool, loops: seq<Loop>, streams: nat, ctxs: nat, cancelled: set<nat>,
                   i: nat, l: Loop)
    requires i < |loops| && l.gen == loops[i].gen && l.ctx == loops[i].ctx
    requires loops[i].consume.Finished? ==> l.consume.Finished?
    ensures Alternates(history, serving, loops) ==> Alternates(history, serving, loops[i := l])
    ensures Ordered(loops, streams, ctxs) ==> Ordered(loops[i := l], streams, ctxs)
    ensures Past(loops, cancelled) ==> Past(loops[i := l], cancelled)
  {
  }

  lemma CleanupAlternates(history: seq<Event>, loops: seq<Loop>)
    requires Alternates(history, true, loops)
    ensures loops != [] && Alternates(history + [CleanedUp(Some(loops[|loops| - 1].gen))], false, loops)
  {
  }

  // ----- steps of the run loop

  lemma OpenKeepsLife(k: Core, loops: seq<Loop>, streams: nat)
    requires Life(k, loops, streams) && k.run.Dialing?
    ensures Life(Dialed(k).(run := Registering(streams), stream := Some(streams)), loops, streams + 1)
  {
    hide Alternates, Ordered, Past, LatestConsume, Total;
    OrderedMore(loops, streams, k.ctxs, streams + 1, k.ctxs + 1);
  }

  /** The cleanup of the latest connect, and what the run loop does after it. */
  lemma CleanupKeepsLife(k: Core, loops: seq<Loop>, streams: nat, recvErr: seq<nat>, k': Core)
    requires Life(k, loops, streams) && k.run.Serving?
    requires recvErr == [] || (k.recvErr == Some(recvErr))
    requires k' == Cleanup(k.(recvErr := Some(recvErr))).(run := k'.run, wg := k'.wg)
    requires k'.run.Dialing? || k'.run.Exited?
    requires k'.run.Dialing? ==> loops[|loops| - 1].consume.Finished?
    requires k'.run.Exited? ==> k.runDone
    requires k'.wg == k.wg - (if k'.run.Exited? then 1 else 0)
    ensures Life(k', loops, streams)
  {
    hide Alternates, Ordered, Past, Total;
    CleanupAlternates(k.history, loops);
    PastMore(loops, k.cancelled, k'.cancelled);
  }

  lemma StopKeepsLife(c: Config, s: State, r: RunStep)
    requires LifeInv(s) && s.fault.None? && CanRun(s, r) && (r.StopOnCancel? || r.StopOnError?)
    ensures LifeInv(DoRun(c, s, r))
  {
    hide Alternates, Ordered, Past, Total, Fields;
    var t := DoRun(c, s, r);
    CleanupAlternates(s.core.history, s.loops);
    CleanupKeepsLife(s.core, s.loops, |s.wire|, t.core.recvErr.value, t.core);
  }

  lemma LaunchKeepsLife(k: Core, loops: seq<Loop>, streams: nat, l: Loop)
    requires Life(k, loops, streams) && k.run.Launching?
    requires k.cancel.Some? && l == Loop(k.run.gen, k.cancel.value, Rest, true, AtTop)
    ensures Life(Launched(k, l.gen), loops + [l], streams)
  {
    hide Alternates, Ordered, Past, Total;
    PushLoop(k.history, loops, l.gen, l.ctx, k.cancelled, l);
    TotalPush(loops, l, BeatCount());
  }

  /** Moving the run loop, or cancelling more contexts, without opening or dropping a stream. */
  lemma CoreKeepsLife(k: Core, k': Core, loops: seq<Loop>, streams: nat)
    requires Life(k, loops, streams)
    requires k' == k.(run := k'.run, runDone := k'.runDone, closed := k'.closed, cancel := k'.cancel,
                      ctxs := k'.ctxs, cancelled := k'.cancelled, wg := k'.wg)
    requires (k.runDone ==> k'.runDone) && k.ctxs <= k'.ctxs && k.cancelled <= k'.cancelled
    requires k'.cancel.Some? ==> k'.cancel.value < k'.ctxs
    requires forall x :: x in k'.cancelled ==> x < k'.ctxs && (x in k.cancelled || k'.runDone || k.run.Idle?)
    requires k'.wg + RunCount(k) == k.wg + RunCount(k')
    requires (k'.run.Idle? ==> k.run.Idle?) && (k'.run.Serving? <==> k.run.Serving?) && (k.run.Exited? ==> k'.run.Exited?)
    requires k'.run.Exited? ==> k'.runDone
    requires k'.run.Serving? ==> k'.cancel == k.cancel
    requires k'.run.Registering? || k'.run.Launching? ==> k'.run == k.run && k'.cancel == k.cancel && k'.ctxs == k.ctxs
    ensures Life(k', loops, streams)
  {
    hide Alternates, Ordered, Past, LatestConsume, Total;
    OrderedMore(loops, streams, k.ctxs, streams, k'.ctxs);
    PastMore(loops, k.cancelled, k'.cancelled);
  }

  lemma CloseKeepsLife(k: Core, loops: seq<Loop>, streams: nat)
    requires Life(k, loops, streams)
    ensures Life(Closed(k), loops, streams)
  {
    hide Alternates, Ordered, Past, Latest, Total, Connecting;
    CoreKeepsLife(k, Closed(k), loops, streams);
  }

  lemma MoveKeepsLife(k: Core, loops: seq<Loop>, streams: nat, k': Core)
    requires Life(k, loops, streams)
    requires
      || k' == k.(runDone := true)
      || (k.run.Idle? && k' == k.(run := Dialing, wg := k.wg + 1))
      || (k.run.Dialing? && k' == Dialed(k).(run := Backoff))
      || (k.run.Registering? && k' == k.(run := Backoff))
      || (k.run.Backoff? && k' == k.(run := Dialing))
      || (k.run.Backoff? && k.runDone && k' == k.(run := Exited, wg := k.wg - 1))
    ensures Life(k', loops, streams)
  {
    hide Alternates, Ordered, Past, Latest, Total, Connecting;
    CoreKeepsLife(k, k', loops, streams);
  }

  lemma RegisterKeepsLife(k: Core, loops: seq<Loop>, streams: nat)
    requires Life(k, loops, streams) && k.run.Registering?
    ensures Life(k.(run := Launching(k.run.gen)), loops, streams)
  {
    hide Alternates, Ordered, Past, LatestConsume, Total;
  }

  lemma LaunchingHasContext(k: Core, loops: seq<Loop>, streams: nat)
    requires Life(k, loops, streams) && k.run.Launching?
    ensures k.cancel.Some?
  {
  }

  lemma RunKeepsLife(c: Config, s: State, r: RunStep)
    requires LifeInv(s) && s.fault.None? && CanRun(s, r)
    ensures LifeInv(DoRun(c, s, r))
  {
    hide Life;
    match r
    case OpenStream => OpenKeepsLife(s.core, s.loops, |s.wire|);
    case Launch =>
      LaunchingHasContext(s.core, s.loops, |s.wire|);
      LaunchKeepsLife(s.core, s.loops, |s.wire|, Loop(s.core.run.gen, s.core.cancel.value, Rest, true, AtTop));
    case StopOnCancel => StopKeepsLife(c, s, r);
    case StopOnError => StopKeepsLife(c, s, r);
    case RegisterSent => RegisterKeepsLife(s.core, s.loops, |s.wire|);
    case Close => CloseKeepsLife(s.core, s.loops, |s.wire|);
    case _ => MoveKeepsLife(s.core, s.loops, |s.wire|, DoRun(c, s, r).core);
  }

  // ----- steps of the other loops

  /** A loop changes only its own progress. */
  lemma LoopKeepsLife(k: Core, loops: seq<Loop>, streams: nat, i: nat, l: Loop, k': Core)
    requires Life(k, loops, streams)
    requires i < |loops| && l.gen == loops[i].gen && l.ctx == loops[i].ctx
    requires k' == k.(wg := k'.wg, recvErr := k'.recvErr)
    requires k'.wg + BeatCount()(loops[i]) == k.wg + BeatCount()(l)
    requires loops[i].consume.Finished? ==> l.consume.Finished? && k'.recvErr == k.recvErr
    requires i == |loops| - 1 ==> LatestConsume(k'.recvErr, l)
    requires i < |loops| - 1 ==> k'.recvErr == k.recvErr
    ensures Life(k', loops[i := l], streams)
  {
    hide Alternates, Ordered, Past, LatestConsume, Total;
    UpdateLoop(k.history, k.run.Serving?, loops, streams, k.ctxs, k.cancelled, i, l);
    if k.run.Registering? || k.run.Launching? {
      UpdateLoop(k.history, false, loops, k.run.gen, k.ctxs - 1, k.cancelled, i, l);
    }
    TotalUpdate(loops, i, l, BeatCount());
  }

  /** Only the latest consume loop still takes steps. */
  lemma ActiveIsLatest(k: Core, loops: seq<Loop>, streams: nat, i: nat)
    requires Life(k, loops, streams) && i < |loops| && !loops[i].consume.Finished?
    ensures i == |loops| - 1 && LatestConsume(k.recvErr, loops[i])
    ensures k.stream.None? ==> k.run.Exited?
    ensures k.stream.Some? ==> k.stream.value == loops[i].gen
  {
  }

  /** A step that moves only the loop itself, and leaves it in `p`, besides fields the life does not mention. */
  predicate Moves(s: State, t: State, i: nat, p: Consume)
    requires i < |s.loops|
  {
    t.loops == s.loops[i := s.loops[i].(consume := p)] && t.core == s.core && |t.wire| == |s.wire|
  }

  lemma RecvMoves(c: Config, s: State, i: nat)
    requires CanRead(c, s, i, Recv)
    ensures var t := DoRead(c, s, i, Recv);
            i < |t.loops| && Moves(s, t, i, t.loops[i].consume) && (t.loops[i].consume.AtTop? || t.loops[i].consume.InHand?)
  {
    hide Arrivals;
  }

  lemma HandMoves(c: Config, s: State, i: nat, r: ReaderStep)
    requires s.fault.None? && CanRead(c, s, i, r) && (r.Push? || r.Drop?)
    ensures var t := DoRead(c, s, i, r);
            t.fault == s.fault ==> Moves(s, t, i, if r.Push? then AtTop else Finished)
  {
  }

  /** What one step does to its own consume loop and the error channel. */
  predicate Reads(s: State, t: State, i: nat)
    requires i < |s.loops|
  {
    && |t.loops| == |s.loops| && t.loops == s.loops[i := s.loops[i].(consume := t.loops[i].consume)]
    && t.core == s.core.(recvErr := t.core.recvErr) && |t.wire| == |s.wire|
    && LatestConsume(t.core.recvErr, t.loops[i])
  }

  lemma MovesReads(s: State, t: State, i: nat, p: Consume)
    requires i < |s.loops| && Moves(s, t, i, p) && LatestConsume(s.core.recvErr, s.loops[i])
    requires !s.loops[i].consume.Finished? && (p.AtTop? || p.InHand? || p.Finished?)
    ensures Reads(s, t, i)
  {
  }

  lemma PlainReads(c: Config, s: State, i: nat, r: ReaderStep)
    requires CanRead(c, s, i, r) && (r.EnterRecv? || r.RecvFails? || r.Report?)
    requires LatestConsume(s.core.recvErr, s.loops[i]) && (s.core.stream.Some? ==> s.core.stream.value == s.loops[i].gen)
    ensures DoRead(c, s, i, r).fault == s.fault ==> Reads(s, DoRead(c, s, i, r), i)
  {
  }

  lemma ReaderSteps(c: Config, s: State, i: nat, r: ReaderStep)
    requires s.fault.None? && CanRead(c, s, i, r) && !s.loops[i].consume.Finished?
    requires LatestConsume(s.core.recvErr, s.loops[i]) && (s.core.stream.Some? ==> s.core.stream.value == s.loops[i].gen)
    ensures DoRead(c, s, i, r).fault == s.fault ==> Reads(s, DoRead(c, s, i, r), i)
  {
    hide DoRead, Reads, Moves, LatestConsume;
    var t := DoRead(c, s, i, r);
    if r.Recv? {
      RecvMoves(c, s, i);
      MovesReads(s, t, i, t.loops[i].consume);
    } else if r.Push? || r.Drop? {
      HandMoves(c, s, i, r);
      if t.fault == s.fault {
        MovesReads(s, t, i, if r.Push? then AtTop else Finished);
      }
    } else {
      PlainReads(c, s, i, r);
    }
  }

  lemma ReaderKeepsLife(c: Config, s: State, i: nat, r: ReaderStep)
    requires LifeInv(s) && s.fault.None? && CanRead(c, s, i, r)
    ensures LifeInv(DoRead(c, s, i, r))
  {
    assert !s.loops[i].consume.Finished?;
    ActiveIsLatest(s.core, s.loops, |s.wire|, i);
    hide Life, LatestConsume;
    var t := DoRead(c, s, i, r);
    ReaderSteps(c, s, i, r);
    if t.fault.None? {
      LoopKeepsLife(s.core, s.loops, |s.wire|, i, t.loops[i], t.core);
    }
  }

  /** A loop that only moves its heartbeat. */
  lemma BeatKeepsLife(k: Core, loops: seq<Loop>, streams: nat, i: nat, l: Loop, wg: int)
    requires Life(k, loops, streams) && i < |loops|
    requires l == loops[i].(beat := l.beat, alive := l.alive) && wg + BeatCount()(loops[i]) == k.wg + BeatCount()(l)
    ensures Life(k.(wg := wg), loops[i := l], streams)
  {
    assert i == |loops| - 1 ==> LatestConsume(k.recvErr, loops[i]);
    hide Life;
    LoopKeepsLife(k, loops, streams, i, l, k.(wg := wg));
  }

  lemma HeartKeepsLife(s: State, i: nat, h: HeartStep)
    requires LifeInv(s) && s.fault.None? && CanHeart(s, i, h)
    ensures LifeInv(DoHeart(s, i, h))
  {
    hide Life;
    var t := DoHeart(s, i, h);
    BeatKeepsLife(s.core, s.loops, |s.wire|, i, t.loops[i], t.core.wg);
  }

  lemma LockKeepsLife(s: State, x: Sender, l: LockStep)
    requires LifeInv(s) && s.fault.None? && CanLock(s, x, l)
    ensures LifeInv(DoLock(s, x, l))
  {
    hide Life;
    var t := DoLock(s, x, l);
    LockingLoops(s, x, l);
    if x.Beater? && t.fault.None? {
      BeatKeepsLife(s.core, s.loops, |s.wire|, x.loop, t.loops[x.loop], s.core.wg);
    }
  }

  lemma LockingLoops(s: State, x: Sender, l: LockStep)
    requires CanLock(s, x, l)
    ensures var t := DoLock(s, x, l);
            && t.core == s.core && |t.wire| == |s.wire| && |t.loops| == |s.loops|
            && (t.fault != s.fault ==> t.fault == Some(SendOnNil(x)) && s.core.stream.None? && t.loops == s.loops)
            && (!x.Beater? ==> t.loops == s.loops)
            && (x.Beater? ==>
                  && x.loop < |s.loops|
                  && t.loops == s.loops[x.loop := s.loops[x.loop].(beat := t.loops[x.loop].beat)])
  {
  }

  lemma LifeKept(c: Config, s: State, a: Action)
    requires LifeInv(s) && Can(c, s, a)
    ensures LifeInv(Do(c, s, a))
  {
    hide Life;
    match a
    case Run(r) => RunKeepsLife(c, s, r);
    case Heart(i, h) => HeartKeepsLife(s, i, h);
    case Reader(i, r) => ReaderKeepsLife(c, s, i, r);
    case Locking(x, l) => LockKeepsLife(s, x, l);
    case Take(_) =>
    case AckCall(_, _, _) =>
    case PubCall(_) =>
    case Pubs(_, _) =>
    case Server(_, _) =>
  }
}
