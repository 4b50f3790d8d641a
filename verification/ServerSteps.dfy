/**
 The programs of Sessions and the server steps of Protocol: a whole session loop is a run of its stream's
 steps, and each call that sends is one step.
 */
module ServerSteps {
  import opened Common
  import opened Envelopes
  import opened Frames
  import opened Sessions
  import opened Protocol
  import opened ProtocolRuns

  /** The session of stream `g` where it stands; everything else as in `s`. */
  function WithSession(s: State, g: nat, ses: Session): State
    requires g < |s.wire|
  {
    s.(wire := s.wire[g := s.wire[g].(session := ses)])
  }

  /** The frames that the session of a stream has yet to read. */
  predicate Unread(p: Pipe, frames: seq<Request>) {
    && |p.session.read| + |frames| == |p.sent|
    && forall i :: 0 <= i < |frames| ==> frames[i] == p.sent[|p.session.read| + i].req
  }

  lemma NextUnread(p: Pipe, frames: seq<Request>, ok: bool)
    requires Unread(p, frames) && frames != [] && !p.session.phase.Ended?
    ensures |p.session.read| < |p.sent| && p.sent[|p.session.read|].req == frames[0]
    ensures Unread(p.(session := Serve(p.session, frames[0], ok)), frames[1..])
  {
    ServeReads(p.session, frames[0], ok);
    hide Serve;
  }

  /**
   What Stream plays against the frames still unread, with any handler, is a run of the protocol that ends in
   the session it ends in.
   */
  lemma {:induction false} StreamRuns(c: Config, s: State, g: nat, frames: seq<Request>, history: seq<Callback>,
                                      verdict: seq<Callback> -> bool) returns (acts: seq<Action>)
    requires s.fault.None? && g < |s.wire| && Unread(s.wire[g], frames)
    ensures Runs(c, s, acts, WithSession(s, g, Play(s.wire[g].session, frames, history, verdict)))
    decreases |frames|
  {
    hide Serve, Hangup, Due;
    var ses := s.wire[g].session;
    if ses.phase.Ended? {
      acts := [];
      assert WithSession(s, g, ses) == s;
    } else if frames == [] {
      acts := [Server(g, ServeHangup)];
      assert acts[1..] == [];
    } else {
      var ok := verdict(history + ses.calls + Due(ses, frames[0]));
      var next := Serve(ses, frames[0], ok);
      NextUnread(s.wire[g], frames, ok);
      var a := Server(g, ServeNext(ok));
      assert Can(c, s, a) && Do(c, s, a) == WithSession(s, g, next);
      var rest := StreamRuns(c, WithSession(s, g, next), g, frames[1..], history, verdict);
      acts := [a] + rest;
      assert acts[1..] == rest;
      var t := Play(ses, frames, history, verdict);
      assert WithSession(WithSession(s, g, next), g, t) == WithSession(s, g, t);
    }
  }

  /** The stream has taken what the protocol's has. */
  ghost predicate Mirrors(session: ServerSession, s: State, g: nat)
    reads session.stream
  {
    g < |s.wire| && session.stream.outbox == s.wire[g].pushed
  }

  method DeliverAsStep(session: ServerSession, env: Envelope, id: Uuid, mt: Instant, u: Instant, up: bool,
                       ghost s: State, ghost g: nat) returns (ok: bool)
    requires Mirrors(session, s, g)
    modifies session.stream`outbox, env.message
    ensures ok == up
    ensures session.stream.outbox == Served(s.wire[g], Send(PushDeliver(old(env.Value()), id, mt, u), up)).pushed
  {
    hide Normalized;
    ok := session.SendDeliver(env, id, mt, u, up);
  }

  method BroadcastAsStep(session: ServerSession, env: Envelope, id: Uuid, mt: Instant, u: Instant, up: bool,
                         ghost s: State, ghost g: nat) returns (ok: bool)
    requires Mirrors(session, s, g)
    modifies session.stream`outbox, env.message
    ensures ok == up
    ensures session.stream.outbox == Served(s.wire[g], Send(PushBroadcast(old(env.Value()), id, mt, u), up)).pushed
  {
    hide Normalized;
    ok := session.SendBroadcast(env, id, mt, u, up);
  }

  method HeartbeatAsStep(session: ServerSession, nonce: string, up: bool, ghost s: State, ghost g: nat) returns (ok: bool)
    requires Mirrors(session, s, g)
    modifies session.stream`outbox
    ensures ok == up && session.stream.outbox == Served(s.wire[g], Send(PushHeartbeat(nonce), up)).pushed
  {
    ok := session.SendHeartbeat(nonce, up);
  }
}
