/**
 Every token lifecycle at once, over one Redis database and a clock: logins split into advancing the
 version and signing, refresh tokens checked and then taken, revocations measured and then written.
 Calls of different users interleave in any order.
 */
module AuthSystem {
  import opened Common
  import opened Keys
  import opened RedisDb
  import opened Stores
  import opened Tokens

  /**
   Lifetimes and tolerances in clock ticks. `delay` bounds the time from advancing a version to signing
   with it, `lag` the time from the expiry check of a token to the reading of its version or of the blocklist.
   */
  datatype Params = Params(
    simpleTtl: Span, simpleSkew: nat, versionTtl: nat, delay: nat, lag: nat,
    accessTtl: Span, refreshTtl: Span, skew: nat, precision: Span)

  /** The signature of a login's token: when it was made, and the expiry it carries. */
  datatype Signature = Signature(at: int, exp: int)

  /** One advance of a user's token version, by a login or a revocation. */
  datatype Bump = Bump(userId: int, version: int, at: int, login: bool, token: Option<Signature>)

  /** A minted pair of tokens; `saved` once the store has the refresh id, `blocked` once its revocation is written. */
  datatype Pair = Pair(
    userId: int, sequence: string, sessionVersion: int, accessId: string, refreshId: string, issued: int,
    accessExp: int, refreshExp: int, saved: Option<int>, taken: bool, blocked: bool)

  /** A ConsumeRefreshToken call whose token has passed its checks. */
  datatype Check = Check(pair: nat, at: int, open: bool)

  /** A successful ConsumeRefreshToken. */
  datatype Redemption = Redemption(pair: nat, checkedAt: int, at: int)

  /** A RevokeAccessToken call that has measured the remaining time. */
  datatype Measure = Measure(pair: nat, at: int, ttl: int)

  datatype State = State(
    now: int,
    db: Db,
    bumps: seq<Bump>,
    pairs: seq<Pair>,
    checks: seq<Check>,
    redeemed: seq<Redemption>,
    mismatches: nat,
    measures: seq<Measure>)

  function Init(t: int): State {
    State(t, map[], [], [], [], [], 0, [])
  }

  datatype Action =
    | Tick(d: nat)
    | BumpVersion(userId: int, login: bool)
    | SignSimple(bump: nat)
    | Issue(userId: int, sequence: string, sessionVersion: int, accessId: string, refreshId: string)
    | SavePair(pair: nat)
    | CheckRefresh(pair: nat)
    | TakeRefresh(check: nat)
    | MeasureRevoke(pair: nat)
    | WriteRevoke(measure: nat)
    | BumpSession(userId: int)

  predicate Fresh(s: State, accessId: string, refreshId: string) {
    && accessId != "" && refreshId != ""
    && forall p :: 0 <= p < |s.pairs| ==> s.pairs[p].accessId != accessId && s.pairs[p].refreshId != refreshId
  }

  predicate Can(cfg: Params, s: State, a: Action) {
    match a
    case Tick(_) => true
    case BumpVersion(u, _) => Next(s.db, s.now, Render(Version(u))).Some?
    case SignSimple(i) =>
      i < |s.bumps| && s.bumps[i].login && s.bumps[i].token.None? && s.now <= s.bumps[i].at + cfg.delay
    case Issue(_, _, _, aid, rid) => Fresh(s, aid, rid)
    case SavePair(p) => p < |s.pairs| && s.pairs[p].saved.None?
    case CheckRefresh(p) => p < |s.pairs| && Unexpired(s.pairs[p].refreshExp, cfg.skew, s.now)
    case TakeRefresh(k) => k < |s.checks| && s.checks[k].open && s.checks[k].pair < |s.pairs|
    case MeasureRevoke(p) => p < |s.pairs|
    case WriteRevoke(m) => m < |s.measures| && s.measures[m].pair < |s.pairs|
    case BumpSession(u) => Next(s.db, s.now, Render(Session(u))).Some?
  }

  function Do(cfg: Params, s: State, a: Action): State
    requires Can(cfg, s, a)
  {
    match a
    case Tick(d) => s.(now := s.now + d)
    case BumpVersion(u, login) =>
      var key := Render(Version(u));
      s.(db := Incremented(s.db, s.now, key, cfg.versionTtl),
         bumps := s.bumps + [Bump(u, Next(s.db, s.now, key).value, s.now, login, None)])
    case SignSimple(i) =>
      var exp := NumericDate(s.now + cfg.simpleTtl, cfg.precision);
      s.(bumps := s.bumps[i := s.bumps[i].(token := Some(Signature(s.now, exp)))])
    case Issue(u, sequence, version, aid, rid) =>
      s.(pairs := s.pairs + [Pair(u, sequence, version, aid, rid, s.now,
                                  NumericDate(s.now + cfg.accessTtl, cfg.precision),
                                  NumericDate(s.now + cfg.refreshTtl, cfg.precision), None, false, false)])
    case SavePair(p) =>
      var x := s.pairs[p];
      s.(db := Set(s.db, s.now, Render(Refresh(x.refreshId)), Meta(RefreshMetadata(x.userId, x.sequence)), cfg.refreshTtl),
         pairs := s.pairs[p := x.(saved := Some(s.now))])
    case CheckRefresh(p) => s.(checks := s.checks + [Check(p, s.now, true)])
    case TakeRefresh(k) => Take(s, k)
    case MeasureRevoke(p) =>
      s.(measures := s.measures + [Measure(p, s.now, RevokeTtl(Some(s.pairs[p].accessExp), cfg.accessTtl, s.now))])
    case WriteRevoke(m) =>
      var p := s.measures[m].pair;
      s.(db := Set(s.db, s.now, Render(Block(s.pairs[p].accessId)), Mark, s.measures[m].ttl),
         pairs := s.pairs[p := s.pairs[p].(blocked := true)])
    case BumpSession(u) => s.(db := Incr(s.db, s.now, Render(Session(u))))
  }

  /** GETDEL and the cross-check of what it returns. */
  function Take(s: State, k: nat): State
    requires k < |s.checks| && s.checks[k].pair < |s.pairs|
  {
    var p := s.checks[k].pair;
    var x := s.pairs[p];
    var key := Render(Refresh(x.refreshId));
    var hit := Lookup(s.db, s.now, key);
    var t := s.(checks := s.checks[k := s.checks[k].(open := false)]);
    if hit.None? then t
    else
      var u := t.(db := Del(s.db, key), pairs := s.pairs[p := x.(taken := true)]);
      var claims := RefreshClaims(x.userId, x.sequence, "refresh", x.refreshId, Some(x.refreshExp));
      if hit.value.Meta? && MetaCheck(hit.value.meta, claims).Good?
      then u.(redeemed := s.redeemed + [Redemption(p, s.checks[k].at, s.now)])
      else u.(mismatches := s.mismatches + 1)
  }

  // ----- verification, as it would answer in a state

  /** VerifySimpleToken of the token of bump `i`, whose expiry was checked at `parsed` and whose version is read now. */
  predicate SimpleAccepts(cfg: Params, s: State, i: nat, parsed: int) {
    && i < |s.bumps| && s.bumps[i].token.Some?
    && s.bumps[i].token.value.at <= parsed && s.now - cfg.lag <= parsed <= s.now
    && Unexpired(s.bumps[i].token.value.exp, cfg.simpleSkew, parsed)
    && VersionRead(s.db, s.now, s.bumps[i].userId) == Done(s.bumps[i].version)
  }

  /** VerifyAccessToken of the access token of pair `p`, whose expiry was checked at `parsed`. */
  predicate AccessAccepts(cfg: Params, s: State, p: nat, parsed: int) {
    && p < |s.pairs| && s.pairs[p].issued <= parsed <= s.now
    && Unexpired(s.pairs[p].accessExp, cfg.skew, parsed)
    && Lookup(s.db, s.now, Render(Block(s.pairs[p].accessId))).None?
  }

  /** The session-version check of pair `p`. */
  predicate SessionAccepts(s: State, p: nat)
    requires p < |s.pairs|
  {
    var x := s.pairs[p];
    SessionCheck(AccessClaims(x.userId, x.sequence, x.sessionVersion, "access", x.accessId, Some(x.accessExp)),
                 Counter(Lookup(s.db, s.now, Render(Session(x.userId))))).Good?
  }

  // ----- runs

  predicate Runs(cfg: Params, s: State, acts: seq<Action>, t: State)
    decreases |acts|
  {
    if acts == [] then s == t
    else Can(cfg, s, acts[0]) && Runs(cfg, Do(cfg, s, acts[0]), acts[1..], t)
  }

  ghost predicate Reachable(cfg: Params, s: State) {
    exists t: int, acts :: Runs(cfg, Init(t), acts, s)
  }

  // ----- the invariant, one store at a time

  /** The index of the latest advance of a user's version. */
  function Latest(bumps: seq<Bump>, u: int): (l: Option<nat>)
    ensures l.Some? ==> l.value < |bumps| && bumps[l.value].userId == u
    ensures forall i :: 0 <= i < |bumps| && bumps[i].userId == u ==> l.Some? && i <= l.value
  {
    if bumps == [] then None
    else if bumps[|bumps| - 1].userId == u then Some(|bumps| - 1)
    else Latest(bumps[..|bumps| - 1], u)
  }

  function BumpEntry(cfg: Params, b: Bump): Entry {
    Entry(Number(b.version), if cfg.versionTtl > 0 then Some(b.at + cfg.versionTtl) else None)
  }

  /** A later advance has a larger version, or comes after the earlier one's key has expired. */
  predicate Outdates(cfg: Params, earlier: Bump, later: Bump) {
    earlier.version < later.version || (cfg.versionTtl > 0 && earlier.at + cfg.versionTtl <= later.at)
  }

  predicate BumpOk(cfg: Params, now: int, b: Bump) {
    && 1 <= b.version && b.at <= now
    && (b.token.Some? ==> b.login && b.token.value.at <= now && b.token.value.exp <= b.at + cfg.delay + cfg.simpleTtl)
  }

  /** The version key of a user is exactly what the latest advance left. */
  predicate VersionKey(cfg: Params, db: Db, bumps: seq<Bump>, u: int) {
    var l := Latest(bumps, u);
    if l.None? then Render(Version(u)) !in db
    else Render(Version(u)) in db && db[Render(Version(u))] == BumpEntry(cfg, bumps[l.value])
  }

  ghost predicate SimpleInv(cfg: Params, s: State) {
    && (forall i :: 0 <= i < |s.bumps| ==> BumpOk(cfg, s.now, s.bumps[i]))
    && (forall i, j :: 0 <= i < j < |s.bumps| ==> s.bumps[i].at <= s.bumps[j].at)
    && (forall i, j :: 0 <= i < j < |s.bumps| && s.bumps[i].userId == s.bumps[j].userId ==>
          Outdates(cfg, s.bumps[i], s.bumps[j]))
    && (forall u: int {:trigger Render(Version(u))} :: VersionKey(cfg, s.db, s.bumps, u))
  }

  /** The refresh key of a pair is there exactly from saving to taking, under the pair's own metadata. */
  predicate RefreshKey(cfg: Params, db: Db, x: Pair) {
    var key := Render(Refresh(x.refreshId));
    if x.saved.None? || x.taken then key !in db && (x.taken ==> x.saved.Some?)
    else key in db && db[key] == Entry(Meta(RefreshMetadata(x.userId, x.sequence)), Some(x.saved.value + cfg.refreshTtl))
  }

  predicate RedemptionOk(cfg: Params, s: State, r: Redemption) {
    && r.pair < |s.pairs| && s.pairs[r.pair].taken && s.pairs[r.pair].saved.Some?
    && r.checkedAt <= r.at <= s.now
    && Unexpired(s.pairs[r.pair].refreshExp, cfg.skew, r.checkedAt)
    && r.at < s.pairs[r.pair].saved.value + cfg.refreshTtl
  }

  predicate CheckOk(cfg: Params, s: State, k: Check) {
    k.pair < |s.pairs| && k.at <= s.now && Unexpired(s.pairs[k.pair].refreshExp, cfg.skew, k.at)
  }

  ghost predicate RefreshInv(cfg: Params, s: State) {
    && (forall p, q :: 0 <= p < q < |s.pairs| ==> s.pairs[p].refreshId != s.pairs[q].refreshId)
    && (forall p {:trigger s.pairs[p]} :: 0 <= p < |s.pairs| ==> RefreshKey(cfg, s.db, s.pairs[p]))
    && (forall id: string {:trigger Render(Refresh(id))} :: Render(Refresh(id)) in s.db ==>
          exists p :: 0 <= p < |s.pairs| && s.pairs[p].refreshId == id)
    && (forall k {:trigger s.checks[k]} :: 0 <= k < |s.checks| ==> CheckOk(cfg, s, s.checks[k]))
    && (forall r {:trigger s.redeemed[r]} :: 0 <= r < |s.redeemed| ==> RedemptionOk(cfg, s, s.redeemed[r]))
    && (forall r, r' :: 0 <= r < r' < |s.redeemed| ==> s.redeemed[r].pair != s.redeemed[r'].pair)
    && s.mismatches == 0
  }

  /** A written revocation lasts at least to the token's expiry. */
  predicate BlockKey(db: Db, x: Pair) {
    var key := Render(Block(x.accessId));
    if !x.blocked then key !in db
    else key in db && db[key].expires.Some? && x.accessExp <= db[key].expires.value
  }

  predicate MeasureOk(s: State, m: Measure) {
    m.pair < |s.pairs| && m.at <= s.now && m.ttl > 0 && s.pairs[m.pair].accessExp <= m.at + m.ttl
  }

  ghost predicate BlockInv(s: State) {
    && (forall p, q :: 0 <= p < q < |s.pairs| ==> s.pairs[p].accessId != s.pairs[q].accessId)
    && (forall p {:trigger s.pairs[p]} :: 0 <= p < |s.pairs| ==> BlockKey(s.db, s.pairs[p]))
    && (forall id: string {:trigger Render(Block(id))} :: Render(Block(id)) in s.db ==>
          exists p :: 0 <= p < |s.pairs| && s.pairs[p].accessId == id)
    && (forall m {:trigger s.measures[m]} :: 0 <= m < |s.measures| ==> MeasureOk(s, s.measures[m]))
  }

  /** A session counter is positive and never expires. */
  predicate SessionKey(db: Db, u: int) {
    Render(Session(u)) in db ==> db[Render(Session(u))].expires.None? && db[Render(Session(u))].value.Number?
                                 && db[Render(Session(u))].value.n >= 1
  }

  ghost predicate SessionInv(s: State) {
    forall u: int {:trigger Render(Session(u))} :: SessionKey(s.db, u)
  }

  ghost predicate Inv(cfg: Params, s: State) {
    SimpleInv(cfg, s) && RefreshInv(cfg, s) && BlockInv(s) && SessionInv(s)
  }

  // ----- steps

  /** One key at most differs. */
  ghost predicate ElsewhereSame(db: Db, db': Db, k: StoreKey) {
    forall h: StoreKey {:trigger Render(h)} :: h != k ==>
      (Render(h) in db' <==> Render(h) in db) && (Render(h) in db ==> db'[Render(h)] == db[Render(h)])
  }

  function KeyOf(s: State, a: Action): StoreKey {
    match a
    case BumpVersion(u, _) => Version(u)
    case SavePair(p) => if p < |s.pairs| then Refresh(s.pairs[p].refreshId) else Refresh("")
    case TakeRefresh(k) =>
      if k < |s.checks| && s.checks[k].pair < |s.pairs| then Refresh(s.pairs[s.checks[k].pair].refreshId) else Refresh("")
    case WriteRevoke(m) =>
      if m < |s.measures| && s.measures[m].pair < |s.pairs| then Block(s.pairs[s.measures[m].pair].accessId) else Block("")
    case BumpSession(u) => Session(u)
    case _ => Refresh("")
  }

  /** A step writes the key of one store and leaves every other key as it is. */
  lemma OneKey(cfg: Params, s: State, a: Action)
    requires Can(cfg, s, a)
    ensures ElsewhereSame(s.db, Do(cfg, s, a).db, KeyOf(s, a))
  {
    KeyApartFromAll(KeyOf(s, a));
  }

  lemma LatestPush(bumps: seq<Bump>, b: Bump, u: int)
    ensures Latest(bumps + [b], u) == if b.userId == u then Some(|bumps|) else Latest(bumps, u)
  {
    assert (bumps + [b])[..|bumps|] == bumps;
  }

  lemma {:induction false} LatestUpdate(bumps: seq<Bump>, i: nat, b: Bump, u: int)
    requires i < |bumps| && b.userId == bumps[i].userId
    ensures Latest(bumps[i := b], u) == Latest(bumps, u)
  {
    var n := |bumps| - 1;
    if i < n {
      assert bumps[i := b][..n] == bumps[..n][i := b];
      LatestUpdate(bumps[..n], i, b, u);
    } else {
      assert bumps[i := b][..n] == bumps[..n];
    }
  }

  lemma BumpKeepsKey(cfg: Params, s: State, u: int, login: bool, v: int)
    requires SimpleInv(cfg, s) && Can(cfg, s, BumpVersion(u, login))
    ensures var t := Do(cfg, s, BumpVersion(u, login)); VersionKey(cfg, t.db, t.bumps, v)
  {
    hide Latest, Outdates, BumpOk;
    var t := Do(cfg, s, BumpVersion(u, login));
    OneKey(cfg, s, BumpVersion(u, login));
    assert VersionKey(cfg, s.db, s.bumps, u) && VersionKey(cfg, s.db, s.bumps, v);
    LatestPush(s.bumps, t.bumps[|s.bumps|], v);
    KeysApart(Version(v), Version(u));
  }

  /** The new advance is in order, and outdates the user's earlier ones. */
  lemma BumpOutdates(cfg: Params, s: State, u: int, login: bool, i: nat)
    requires SimpleInv(cfg, s) && Can(cfg, s, BumpVersion(u, login)) && i < |s.bumps|
    ensures var b := Do(cfg, s, BumpVersion(u, login)).bumps[|s.bumps|];
            && s.bumps[i].at <= b.at
            && (s.bumps[i].userId == u ==> Outdates(cfg, s.bumps[i], b))
  {
    hide Latest, Render;
    var l := Latest(s.bumps, u);
    assert VersionKey(cfg, s.db, s.bumps, u) && BumpOk(cfg, s.now, s.bumps[i]);
    assert s.bumps[i].userId == u && i < l.value ==> Outdates(cfg, s.bumps[i], s.bumps[l.value]);
  }

  lemma BumpIsOk(cfg: Params, s: State, u: int, login: bool)
    requires SimpleInv(cfg, s) && Can(cfg, s, BumpVersion(u, login))
    ensures var t := Do(cfg, s, BumpVersion(u, login));
            var b := t.bumps[|s.bumps|];
            t.bumps == s.bumps + [b] && t.now == s.now && b.userId == u && BumpOk(cfg, t.now, b)
  {
    hide Latest, Render;
    assert VersionKey(cfg, s.db, s.bumps, u);
    var l := Latest(s.bumps, u);
    assert l.Some? ==> BumpOk(cfg, s.now, s.bumps[l.value]);
  }

  lemma BumpKeepsSimple(cfg: Params, s: State, u: int, login: bool)
    requires SimpleInv(cfg, s) && Can(cfg, s, BumpVersion(u, login))
    ensures SimpleInv(cfg, Do(cfg, s, BumpVersion(u, login)))
  {
    hide Latest, VersionKey, Outdates, BumpOk, Render, Can, Do;
    var t := Do(cfg, s, BumpVersion(u, login));
    BumpIsOk(cfg, s, u, login);
    forall v: int ensures VersionKey(cfg, t.db, t.bumps, v) {
      BumpKeepsKey(cfg, s, u, login, v);
    }
    forall i | 0 <= i < |s.bumps|
      ensures s.bumps[i].at <= t.bumps[|s.bumps|].at
      ensures s.bumps[i].userId == u ==> Outdates(cfg, s.bumps[i], t.bumps[|s.bumps|])
    {
      BumpOutdates(cfg, s, u, login, i);
    }
  }

  lemma SignKeepsSimple(cfg: Params, s: State, i: nat)
    requires SimpleInv(cfg, s) && Can(cfg, s, SignSimple(i))
    ensures SimpleInv(cfg, Do(cfg, s, SignSimple(i)))
  {
    hide Latest;
    var t := Do(cfg, s, SignSimple(i));
    forall u: int ensures VersionKey(cfg, t.db, t.bumps, u) {
      assert VersionKey(cfg, s.db, s.bumps, u);
      LatestUpdate(s.bumps, i, t.bumps[i], u);
    }
  }

  lemma OthersKeepSimple(cfg: Params, s: State, t: State, k: StoreKey)
    requires SimpleInv(cfg, s) && t.bumps == s.bumps && s.now <= t.now
    requires ElsewhereSame(s.db, t.db, k) && !k.Version?
    ensures SimpleInv(cfg, t)
  {
    hide Latest;
    forall u: int ensures VersionKey(cfg, t.db, t.bumps, u) {
      assert VersionKey(cfg, s.db, s.bumps, u);
    }
    forall i | 0 <= i < |t.bumps| ensures BumpOk(cfg, t.now, t.bumps[i]) {
      assert BumpOk(cfg, s.now, s.bumps[i]);
    }
  }

  lemma SimpleKept(cfg: Params, s: State, a: Action)
    requires SimpleInv(cfg, s) && Can(cfg, s, a)
    ensures SimpleInv(cfg, Do(cfg, s, a))
  {
    if a.BumpVersion? {
      BumpKeepsSimple(cfg, s, a.userId, a.login);
    } else if a.SignSimple? {
      SignKeepsSimple(cfg, s, a.bump);
    } else {
      OneKey(cfg, s, a);
      OthersKeepSimple(cfg, s, Do(cfg, s, a), KeyOf(s, a));
    }
  }
}
