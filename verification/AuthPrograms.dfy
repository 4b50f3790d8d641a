/**
 The programs of Tokens and the system of AuthSystem: each program, called on a database and clock that a
 state describes, has the effect of that state's steps, or answers what the state's predicate says.
 */
module AuthPrograms {
  import opened Common
  import opened Keys
  import opened RedisDb
  import opened Stores
  import opened Tokens
  import opened AuthSystem

  /** The server is as the state says. */
  predicate Mirrors(client: Redis, s: State)
    reads client
  {
    client.db == s.db && client.now == s.now
  }

  function SettingsOf(cfg: Params, secret: string): Settings {
    Settings(secret, "HS256", cfg.accessTtl, cfg.refreshTtl, cfg.skew, ACCESS_BLOCK_PREFIX, REFRESH_PREFIX)
  }

  function SimpleSettingsOf(cfg: Params, secret: string): SimpleSettings {
    SimpleSettings(secret, cfg.simpleTtl, cfg.simpleSkew)
  }

  // ----- the tokens that the state's records stand for

  function SimpleToken(b: Bump, sequence: string, id: string, secret: string): Signed<SimpleClaims>
    requires b.token.Some?
  {
    Signed(SimpleClaims(b.userId, sequence, b.version, id, Some(b.token.value.exp)), secret)
  }

  function AccessClaimsOf(x: Pair): AccessClaims {
    AccessClaims(x.userId, x.sequence, x.sessionVersion, "access", x.accessId, Some(x.accessExp))
  }

  function RefreshClaimsOf(x: Pair): RefreshClaims {
    RefreshClaims(x.userId, x.sequence, "refresh", x.refreshId, Some(x.refreshExp))
  }

  // ----- simple tokens

  /** A login is the advance of the version and the signing. */
  method Login(cfg: Params, ghost s: State, userId: int, sequence: string, id: string, secret: string,
               versions: TokenVersions)
    returns (r: Outcome<SimpleResult>)
    requires Mirrors(versions.client, s) && versions.ttl == cfg.versionTtl && secret != ""
    modifies versions.client
    ensures r.Good? <==> Can(cfg, s, BumpVersion(userId, true))
    ensures r.Good? ==>
              var b := Do(cfg, s, BumpVersion(userId, true));
              && Can(cfg, b, SignSimple(|s.bumps|))
              && var t := Do(cfg, b, SignSimple(|s.bumps|));
                 && Mirrors(versions.client, t)
                 && r.value.token == SimpleToken(t.bumps[|s.bumps|], sequence, id, secret)
    ensures r.Bad? ==> Mirrors(versions.client, s)
  {
    r := GenerateSimpleToken(userId, sequence, SimpleSettingsOf(cfg, secret), versions, versions.client.now,
                             cfg.precision, id, true);
  }

  /** What verification answers is what the state accepts. */
  method VerifySimple(cfg: Params, s: State, i: nat, parsed: int, sequence: string, id: string, secret: string,
                      versions: TokenVersions)
    returns (ok: bool)
    requires Mirrors(versions.client, s) && secret != ""
    requires i < |s.bumps| && s.bumps[i].token.Some?
    requires s.bumps[i].token.value.at <= parsed && s.now - cfg.lag <= parsed <= s.now
    ensures ok <==> SimpleAccepts(cfg, s, i, parsed)
  {
    var r := VerifySimpleToken(SimpleToken(s.bumps[i], sequence, id, secret), SimpleSettingsOf(cfg, secret), parsed,
                               versions, true);
    ok := r.Good?;
  }

  // ----- token pairs

  /** Issuing with a store is minting and saving. */
  method IssuePair(cfg: Params, ghost s: State, userId: int, sequence: string, sessionVersion: int, accessId: string,
                   refreshId: string, secret: string, store: RefreshStore)
    returns (r: Outcome<TokenPair>)
    requires Mirrors(store.client, s) && store.prefix == REFRESH_PREFIX && secret != ""
    requires Fresh(s, accessId, refreshId)
    modifies store.client
    ensures r.Good?
    ensures var i := Do(cfg, s, Issue(userId, sequence, sessionVersion, accessId, refreshId));
            && Can(cfg, i, SavePair(|s.pairs|))
            && var t := Do(cfg, i, SavePair(|s.pairs|));
               && Mirrors(store.client, t)
               && r.value == TokenPair(Signed(AccessClaimsOf(t.pairs[|s.pairs|]), secret),
                                       Signed(RefreshClaimsOf(t.pairs[|s.pairs|]), secret))
  {
    r := GenerateTokenPairWithVersion(userId, sequence, sessionVersion, SettingsOf(cfg, secret), store.client.now,
                                      cfg.precision, accessId, refreshId, store, true);
  }

  /** Redeeming is the check and the taking; it succeeds exactly when the taking is recorded as a redemption. */
  method Redeem(cfg: Params, s: State, p: nat, secret: string, store: RefreshStore) returns (ok: bool)
    requires Mirrors(store.client, s) && store.prefix == REFRESH_PREFIX && secret != ""
    requires p < |s.pairs| && s.pairs[p].refreshId != ""
    requires Render(Refresh(s.pairs[p].refreshId)) in s.db ==> s.db[Render(Refresh(s.pairs[p].refreshId))].value.Meta?
    modifies store.client
    ensures ok ==> Can(cfg, s, CheckRefresh(p))
    ensures Can(cfg, s, CheckRefresh(p)) ==>
              var t := Take(Do(cfg, s, CheckRefresh(p)), |s.checks|);
              Mirrors(store.client, t) && (ok <==> |t.redeemed| == |s.redeemed| + 1)
    ensures !Can(cfg, s, CheckRefresh(p)) ==> Mirrors(store.client, s)
  {
    var r := ConsumeRefreshToken(Signed(RefreshClaimsOf(s.pairs[p]), secret), SettingsOf(cfg, secret), store.client.now,
                                 store, true);
    ok := r.Good?;
  }

  /** Revoking is measuring the time left and writing the blocklist key. */
  method Revoke(cfg: Params, s: State, p: nat, secret: string, list: Blocklist) returns (ok: bool)
    requires Mirrors(list.client, s) && list.prefix == ACCESS_BLOCK_PREFIX
    requires p < |s.pairs| && s.pairs[p].accessId != ""
    modifies list.client
    ensures ok
    ensures var m := Do(cfg, s, MeasureRevoke(p));
            Can(cfg, m, WriteRevoke(|s.measures|)) && Mirrors(list.client, Do(cfg, m, WriteRevoke(|s.measures|)))
  {
    var r := RevokeAccessToken(Some(AccessClaimsOf(s.pairs[p])), SettingsOf(cfg, secret), list.client.now, list, true);
    ok := r.Good?;
  }

  /** What verification answers, with the blocklist and the session version, is what the state accepts. */
  method VerifyAccess(cfg: Params, s: State, p: nat, parsed: int, secret: string, list: Blocklist,
                      versions: SessionVersions)
    returns (ok: bool)
    requires Mirrors(list.client, s) && list.prefix == ACCESS_BLOCK_PREFIX
    requires Mirrors(versions.client, s) && versions.prefix == SESSION_PREFIX && secret != ""
    requires p < |s.pairs| && s.pairs[p].accessId != "" && s.pairs[p].issued <= parsed <= s.now
    ensures ok <==> AccessAccepts(cfg, s, p, parsed) && SessionAccepts(s, p)
  {
    var x := s.pairs[p];
    var token := Signed(AccessClaimsOf(x), secret);
    AccessAcceptedExactly(token, SettingsOf(cfg, secret), parsed, BlockAnswer(list, x.accessId, true));
    var r := VerifyAccessTokenWithVersion(token, SettingsOf(cfg, secret), parsed, list, versions, true, true);
    ok := r.Good?;
  }
}
