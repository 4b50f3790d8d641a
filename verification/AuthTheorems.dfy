/** What holds of tokens over every run, and exactly when the promises that need a bound hold. */
module AuthTheorems {
  import opened Common
  import opened Keys
  import opened RedisDb
  import opened Stores
  import opened Tokens
  import opened AuthSystem
  import opened AuthInvariants

  // ----- simple tokens

  /** Version keys live for ever, or longer than any token of theirs can still be in a verification. */
  predicate LongEnough(cfg: Params) {
    cfg.versionTtl == 0 || cfg.versionTtl >= cfg.simpleTtl + cfg.simpleSkew + cfg.delay + cfg.lag
  }

  /**
   Only the token of a user's latest version advance is ever accepted, although expired counters start
   again at 1: by then every older token is past its expiry and leeway.
   */
  lemma OnlyLatestAccepted(cfg: Params, s: State, i: nat, parsed: int)
    requires Reachable(cfg, s) && LongEnough(cfg) && SimpleAccepts(cfg, s, i, parsed)
    ensures Latest(s.bumps, s.bumps[i].userId) == Some(i) && s.bumps[i].login
  {
    hide Latest, Render;
    ReachableInv(cfg, s);
    AcceptedIsLatest(cfg, s, i, parsed);
  }

  lemma AcceptedIsLatest(cfg: Params, s: State, i: nat, parsed: int)
    requires SimpleInv(cfg, s) && LongEnough(cfg) && SimpleAccepts(cfg, s, i, parsed)
    ensures Latest(s.bumps, s.bumps[i].userId) == Some(i) && s.bumps[i].login
  {
    hide Latest, Render;
    var u := s.bumps[i].userId;
    assert BumpOk(cfg, s.now, s.bumps[i]) && VersionKey(cfg, s.db, s.bumps, u);
    var l := Latest(s.bumps, u).value;
    assert BumpOk(cfg, s.now, s.bumps[l]);
    assert i == l || Outdates(cfg, s.bumps[i], s.bumps[l]);
  }

  /** At most one token of a user is accepted at any instant. */
  lemma OneTokenPerUser(cfg: Params, s: State, i: nat, x: int, j: nat, y: int)
    requires Reachable(cfg, s) && LongEnough(cfg)
    requires SimpleAccepts(cfg, s, i, x) && SimpleAccepts(cfg, s, j, y) && s.bumps[i].userId == s.bumps[j].userId
    ensures i == j
  {
    OnlyLatestAccepted(cfg, s, i, x);
    OnlyLatestAccepted(cfg, s, j, y);
  }

  /** A token rejected on its version, because of another login, a revocation or an expired counter, stays rejected. */
  lemma RejectedForever(cfg: Params, s: State, i: nat, acts: seq<Action>, t: State, parsed: int)
    requires Reachable(cfg, s) && LongEnough(cfg) && i < |s.bumps|
    requires VersionRead(s.db, s.now, s.bumps[i].userId) != Done(s.bumps[i].version)
    requires Runs(cfg, s, acts, t)
    ensures !SimpleAccepts(cfg, t, i, parsed)
  {
    hide Latest, Render, Can, Do;
    ReachableInv(cfg, s);
    RunLater(cfg, s, acts, t);
    var u := s.bumps[i].userId;
    assert VersionKey(cfg, s.db, s.bumps, u) && VersionKey(cfg, t.db, t.bumps, u) && BumpOk(cfg, t.now, t.bumps[i]);
    assert t.bumps[Latest(s.bumps, u).value].userId == u;
    if SimpleAccepts(cfg, t, i, parsed) {
      AcceptedIsLatest(cfg, t, i, parsed);
    }
  }

  /** After a revocation no earlier token of the user is accepted again, nor one of a login already under way. */
  lemma RevokeLeavesNone(cfg: Params, s: State, u: int, acts: seq<Action>, t: State, i: nat, parsed: int)
    requires Reachable(cfg, s) && LongEnough(cfg) && Can(cfg, s, BumpVersion(u, false))
    requires Runs(cfg, Do(cfg, s, BumpVersion(u, false)), acts, t)
    requires i <= |s.bumps| && i < |t.bumps| && t.bumps[i].userId == u
    ensures !SimpleAccepts(cfg, t, i, parsed)
  {
    var r := Do(cfg, s, BumpVersion(u, false));
    Extend(cfg, s, BumpVersion(u, false));
    ReachableInv(cfg, r);
    assert r.bumps[|s.bumps|] == Bump(u, r.bumps[|s.bumps|].version, s.now, false, None);
    hide Latest, Render, Can, Do;
    RunLater(cfg, r, acts, t);
    assert t.bumps[|s.bumps|] == r.bumps[|s.bumps|].(token := t.bumps[|s.bumps|].token);
    if SimpleAccepts(cfg, t, i, parsed) {
      AcceptedIsLatest(cfg, t, i, parsed);
    }
  }

  /** Every accepted simple token is of its user's latest version advance, in every run. */
  ghost predicate AlwaysLatest(cfg: Params) {
    forall s: State, i: nat, parsed: int :: Reachable(cfg, s) && SimpleAccepts(cfg, s, i, parsed) ==>
      Latest(s.bumps, s.bumps[i].userId) == Some(i)
  }

  /** Start so that the first expiry is a whole date, and the clock is not negative. */
  function WholeStart(cfg: Params, span: Span): (t: int)
    ensures NumericDate(t + span, cfg.precision) == t + span
  {
    MultipleIsWhole(span, cfg.precision);
    var t := span * cfg.precision - span;
    assert (t + span) % cfg.precision == 0;
    t
  }

  function Max(a: int, b: int): int {
    if a < b then b else a
  }

  /** A user's first login, signed at the last moment allowed. */
  lemma FirstLogin(cfg: Params, start: int) returns (s: State)
    requires NumericDate(start + cfg.delay + cfg.simpleTtl, cfg.precision) == start + cfg.delay + cfg.simpleTtl
    ensures Reachable(cfg, s) && s.now == start + cfg.delay
    ensures s.bumps == [Bump(1, 1, start, true, Some(Signature(s.now, s.now + cfg.simpleTtl)))]
    ensures Render(Version(1)) in s.db && s.db[Render(Version(1))] == BumpEntry(cfg, s.bumps[0])
  {
    s := Init(start);
    assert Runs(cfg, s, [], s);
    assert Reachable(cfg, s);
    hide Reachable, Runs, Render;
    Extend(cfg, s, BumpVersion(1, true));
    s := Do(cfg, s, BumpVersion(1, true));
    assert s.bumps == [Bump(1, 1, start, true, None)];
    Extend(cfg, s, Tick(cfg.delay));
    s := Do(cfg, s, Tick(cfg.delay));
    Extend(cfg, s, SignSimple(0));
    s := Do(cfg, s, SignSimple(0));
  }

  /** The run in which a token outlives its counter: another login then gets the same version. */
  lemma OutlivedCounter(cfg: Params) returns (s: State, parsed: int)
    requires !LongEnough(cfg)
    ensures Reachable(cfg, s) && |s.bumps| == 2 && s.bumps[0].userId == s.bumps[1].userId
    ensures SimpleAccepts(cfg, s, 0, parsed)
  {
    var start := WholeStart(cfg, cfg.delay + cfg.simpleTtl);
    var end := Max(cfg.versionTtl, cfg.delay);
    s := FirstLogin(cfg, start);
    hide Reachable, Render;
    Extend(cfg, s, Tick(end - cfg.delay));
    s := Do(cfg, s, Tick(end - cfg.delay));
    assert Lookup(s.db, s.now, Render(Version(1))).None?;
    Extend(cfg, s, BumpVersion(1, true));
    s := Do(cfg, s, BumpVersion(1, true));
    parsed := Max(start + cfg.delay, start + end - cfg.lag);
  }

  /**
   Exactly when the single-session promise holds: the version key has no expiry, or lives at least the
   token lifetime plus the leeway plus the signing delay plus the verification lag. One tick less, and
   an old token is accepted beside a newer login.
   */
  lemma SingleSessionExactly(cfg: Params)
    ensures AlwaysLatest(cfg) <==> LongEnough(cfg)
  {
    hide Reachable, Latest, SimpleAccepts;
    if LongEnough(cfg) {
      forall s: State, i: nat, parsed: int | Reachable(cfg, s) && SimpleAccepts(cfg, s, i, parsed)
        ensures i < |s.bumps| && Latest(s.bumps, s.bumps[i].userId) == Some(i)
      {
        AcceptedExists(cfg, s, i, parsed);
        OnlyLatestAccepted(cfg, s, i, parsed);
      }
    } else {
      var s, parsed := OutlivedCounter(cfg);
      assert Latest(s.bumps, s.bumps[0].userId) != Some(0);
    }
  }

  lemma AcceptedExists(cfg: Params, s: State, i: nat, parsed: int)
    requires SimpleAccepts(cfg, s, i, parsed)
    ensures i < |s.bumps|
  {
  }

  // ----- lifetimes

  /** An expiry claim is the instant at the end of a lifetime, rounded down to the precision of the encoding. */
  predicate EndsAfter(cfg: Params, exp: int, start: int, ttl: int) {
    exp <= start + ttl < exp + cfg.precision
  }

  predicate PairDated(cfg: Params, x: Pair) {
    EndsAfter(cfg, x.accessExp, x.issued, cfg.accessTtl) && EndsAfter(cfg, x.refreshExp, x.issued, cfg.refreshTtl)
  }

  predicate Dated(cfg: Params, s: State) {
    && (forall p {:trigger s.pairs[p]} :: 0 <= p < |s.pairs| ==> PairDated(cfg, s.pairs[p]))
    && (forall i {:trigger s.bumps[i]} :: 0 <= i < |s.bumps| && s.bumps[i].token.Some? ==>
          EndsAfter(cfg, s.bumps[i].token.value.exp, s.bumps[i].token.value.at, cfg.simpleTtl))
  }

  lemma StepDated(cfg: Params, s: State, a: Action)
    requires Dated(cfg, s) && Can(cfg, s, a)
    ensures Dated(cfg, Do(cfg, s, a))
  {
    hide Render, Lookup, Set, Del, Incremented, Incr, Next, MetaCheck;
  }

  lemma {:induction false} RunDated(cfg: Params, s: State, acts: seq<Action>, t: State)
    requires Dated(cfg, s) && Runs(cfg, s, acts, t)
    ensures Dated(cfg, t)
    decreases |acts|
  {
    if acts != [] {
      StepDated(cfg, s, acts[0]);
      hide Can, Do, Dated;
      RunDated(cfg, Do(cfg, s, acts[0]), acts[1..], t);
    }
  }

  lemma ReachableDated(cfg: Params, s: State)
    requires Reachable(cfg, s)
    ensures Dated(cfg, s)
  {
    hide Can, Do;
    var t: int, acts :| Runs(cfg, Init(t), acts, s);
    RunDated(cfg, Init(t), acts, s);
  }

  /**
   Each token lives its own lifetime: an access token is accepted only before the access lifetime plus leeway
   has passed since it was issued, and as far as its expiry goes it is accepted until then, up to the precision
   of the encoding; likewise a refresh token with the refresh lifetime, and a simple token with its own.
   */
  lemma LifetimesKept(cfg: Params, s: State, p: nat, parsed: int)
    requires Reachable(cfg, s)
    ensures AccessAccepts(cfg, s, p, parsed) ==> parsed < s.pairs[p].issued + cfg.accessTtl + cfg.skew
    ensures (&& p < |s.pairs| && s.pairs[p].issued <= parsed <= s.now && !s.pairs[p].blocked
             && parsed + cfg.precision <= s.pairs[p].issued + cfg.accessTtl + cfg.skew)
            ==> AccessAccepts(cfg, s, p, parsed)
    ensures Can(cfg, s, CheckRefresh(p)) ==> s.now < s.pairs[p].issued + cfg.refreshTtl + cfg.skew
    ensures p < |s.pairs| && s.now + cfg.precision <= s.pairs[p].issued + cfg.refreshTtl + cfg.skew ==>
              Can(cfg, s, CheckRefresh(p))
    ensures SimpleAccepts(cfg, s, p, parsed) ==> parsed < s.bumps[p].token.value.at + cfg.simpleTtl + cfg.simpleSkew
  {
    ReachableDated(cfg, s);
    ReachableInv(cfg, s);
    hide Render, VersionRead, Reachable;
    assert p < |s.pairs| ==> PairDated(cfg, s.pairs[p]) && BlockKey(s.db, s.pairs[p]);
    assert p < |s.bumps| && s.bumps[p].token.Some? ==>
        EndsAfter(cfg, s.bumps[p].token.value.exp, s.bumps[p].token.value.at, cfg.simpleTtl);
  }

  // ----- refresh tokens

  function Below(n: nat): (s: set<nat>)
    ensures |s| == n && forall x: nat :: x in s <==> x < n
  {
    if n == 0 then {} else Below(n - 1) + {n - 1}
  }

  lemma DistinctBelow(xs: seq<nat>, n: nat)
    requires forall i :: 0 <= i < |xs| ==> xs[i] < n
    requires forall i, j :: 0 <= i < j < |xs| ==> xs[i] != xs[j]
    ensures |xs| <= n
  {
    UsedSize(xs);
    SubsetSize(set i | 0 <= i < |xs| :: xs[i], Below(n));
  }

  lemma {:induction false} UsedSize(xs: seq<nat>)
    requires forall i, j :: 0 <= i < j < |xs| ==> xs[i] != xs[j]
    ensures |set i | 0 <= i < |xs| :: xs[i]| == |xs|
  {
    if xs != [] {
      var init, x := xs[..|xs| - 1], xs[|xs| - 1];
      UsedSize(init);
      assert (set i | 0 <= i < |xs| :: xs[i]) == (set i | 0 <= i < |init| :: init[i]) + {x};
    }
  }

  lemma SubsetSize<T>(a: set<T>, b: set<T>)
    requires a <= b
    ensures |a| <= |b|
  {
    assert b == a + (b - a);
  }

  /**
   Refresh tokens are one-time: over every run, also with any number of calls past their checks at once,
   a pair is redeemed at most once, redemptions never exceed pairs, each is of a saved pair, checked
   before the expiry plus leeway and taken before the stored key expired; and the cross-check of the
   stored metadata never fails.
   */
  lemma RefreshOnce(cfg: Params, s: State)
    requires Reachable(cfg, s)
    ensures forall r, q :: 0 <= r < q < |s.redeemed| ==> s.redeemed[r].pair != s.redeemed[q].pair
    ensures |s.redeemed| <= |s.pairs|
    ensures forall r :: 0 <= r < |s.redeemed| ==>
              && s.redeemed[r].pair < |s.pairs|
              && var x := s.pairs[s.redeemed[r].pair];
                 && x.saved.Some?
                 && s.redeemed[r].checkedAt < x.refreshExp + cfg.skew
                 && s.redeemed[r].at < x.saved.value + cfg.refreshTtl
    ensures s.mismatches == 0
  {
    ReachableInv(cfg, s);
    forall r | 0 <= r < |s.redeemed| ensures RedemptionOk(cfg, s, s.redeemed[r]) {
    }
    DistinctBelow(seq(|s.redeemed|, r requires 0 <= r < |s.redeemed| => s.redeemed[r].pair), |s.pairs|);
  }

  /** A taken token is refused ever after, and so is one whose pair was never saved. */
  lemma TakenNeverReturns(cfg: Params, s: State, k: nat)
    requires Reachable(cfg, s) && Can(cfg, s, TakeRefresh(k))
    ensures var x := s.pairs[s.checks[k].pair];
            var granted := |Do(cfg, s, TakeRefresh(k)).redeemed| > |s.redeemed|;
            granted <==> x.saved.Some? && !x.taken && s.now < x.saved.value + cfg.refreshTtl
  {
    ReachableInv(cfg, s);
    assert RefreshKey(cfg, s.db, s.pairs[s.checks[k].pair]);
  }

  // ----- revocation

  /**
   A written revocation covers the token up to its expiry, through any later steps and further
   revocations: the token is accepted again only by a verification that reads the blocklist at or after
   the expiry and checked the expiry within the leeway.
   */
  lemma RevokedUntilExpiry(cfg: Params, s: State, p: nat, acts: seq<Action>, t: State, parsed: int)
    requires Reachable(cfg, s) && p < |s.pairs| && s.pairs[p].blocked
    requires Runs(cfg, s, acts, t) && AccessAccepts(cfg, t, p, parsed)
    ensures s.pairs[p].accessExp <= t.now && parsed < s.pairs[p].accessExp + cfg.skew
  {
    hide Render, Can, Do;
    ReachableInv(cfg, s);
    RunLater(cfg, s, acts, t);
    assert t.pairs[p].blocked && t.pairs[p].accessExp == s.pairs[p].accessExp;
    assert BlockKey(t.db, t.pairs[p]);
  }

  /**
   No token with a written revocation is accepted, in any run, also not by a verification whose blocklist
   read comes up to `lag` after its expiry check.
   */
  ghost predicate RevocationPermanent(cfg: Params) {
    forall s: State, p: nat, parsed: int ::
      Reachable(cfg, s) && p < |s.pairs| && s.pairs[p].blocked && s.now - cfg.lag <= parsed ==>
        !AccessAccepts(cfg, s, p, parsed)
  }

  /**
   The run in which the blocklist entry ends at the expiry, while the leeway still accepts the token or a
   verification that checked the expiry a tick earlier has yet to read the blocklist.
   */
  lemma RevokedReturns(cfg: Params) returns (s: State, parsed: int)
    requires cfg.skew > 0 || cfg.lag > 0
    ensures Reachable(cfg, s) && |s.pairs| == 1 && s.pairs[0].blocked
    ensures s.now - cfg.lag <= parsed && AccessAccepts(cfg, s, 0, parsed)
  {
    var start := WholeStart(cfg, cfg.accessTtl);
    s := Init(start);
    assert Runs(cfg, s, [], s);
    Extend(cfg, s, Issue(1, "", 0, "a", "r"));
    s := Do(cfg, s, Issue(1, "", 0, "a", "r"));
    assert s.pairs[0].accessExp == start + cfg.accessTtl;
    Extend(cfg, s, MeasureRevoke(0));
    s := Do(cfg, s, MeasureRevoke(0));
    assert s.measures[0].ttl == cfg.accessTtl;
    Extend(cfg, s, WriteRevoke(0));
    s := Do(cfg, s, WriteRevoke(0));
    Extend(cfg, s, Tick(cfg.accessTtl));
    s := Do(cfg, s, Tick(cfg.accessTtl));
    parsed := if cfg.skew > 0 then s.now else s.now - 1;
  }

  /** Exactly when a revocation is for ever: no leeway, and no time between the expiry check and the blocklist read. */
  lemma RevocationExactly(cfg: Params)
    ensures RevocationPermanent(cfg) <==> cfg.skew == 0 && cfg.lag == 0
  {
    if cfg.skew == 0 && cfg.lag == 0 {
      forall s: State, p: nat, parsed: int | Reachable(cfg, s) && p < |s.pairs| && s.pairs[p].blocked && s.now <= parsed
        ensures !AccessAccepts(cfg, s, p, parsed)
      {
        if AccessAccepts(cfg, s, p, parsed) {
          assert Runs(cfg, s, [], s);
          RevokedUntilExpiry(cfg, s, p, [], s, parsed);
        }
      }
    } else {
      var s, parsed := RevokedReturns(cfg);
    }
  }

  // ----- session versions

  /** Once a user's session counter is past the version of a token, the token is superseded for good. */
  lemma SupersededForever(cfg: Params, s: State, p: nat, acts: seq<Action>, t: State)
    requires Reachable(cfg, s) && p < |s.pairs| && Runs(cfg, s, acts, t)
    requires s.pairs[p].sessionVersion < SessionNumber(s.db, s.pairs[p].userId)
    requires 0 < SessionNumber(s.db, s.pairs[p].userId)
    ensures p < |t.pairs| && !SessionAccepts(t, p)
  {
    hide Render, Can, Do;
    ReachableInv(cfg, s);
    RunLater(cfg, s, acts, t);
    var u := s.pairs[p].userId;
    assert SessionKey(t.db, u) && SessionKey(s.db, u);
    assert t.pairs[p].userId == u && t.pairs[p].sessionVersion == s.pairs[p].sessionVersion;
  }

  /**
   Each increment supersedes every token of the user minted with a smaller version; before the first there
   is no constraint.
   */
  lemma SessionConstraint(cfg: Params, s: State, p: nat)
    requires Reachable(cfg, s) && p < |s.pairs|
    ensures SessionAccepts(s, p) <==>
              || Render(Session(s.pairs[p].userId)) !in s.db
              || s.pairs[p].sessionVersion == SessionNumber(s.db, s.pairs[p].userId)
    ensures Can(cfg, s, BumpSession(s.pairs[p].userId)) ==>
              SessionNumber(Do(cfg, s, BumpSession(s.pairs[p].userId)).db, s.pairs[p].userId)
              == SessionNumber(s.db, s.pairs[p].userId) + 1
  {
    hide Render;
    ReachableInv(cfg, s);
    assert SessionKey(s.db, s.pairs[p].userId);
  }
}
