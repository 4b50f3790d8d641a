/** Issuing and verifying tokens: configuration defaults, claims, and the operations over the stores. */
module Tokens {
  import opened Common
  import opened Keys
  import opened RedisDb
  import opened Stores

  const SECOND := 1_000_000_000
  const MINUTE := 60 * SECOND
  const HOUR := 60 * MINUTE

  /** A positive number of clock ticks. */
  type Span = t: int | 0 < t witness 1

  /** A NumericDate claim: the instant rounded down to the precision of the encoding. */
  function NumericDate(t: int, precision: Span): (d: int)
    ensures d <= t < d + precision && d % precision == 0
  {
    DateLemma(t, precision);
    t - t % precision
  }

  lemma DateLemma(t: int, precision: Span)
    ensures var d := t - t % precision; d <= t < d + precision && d % precision == 0
  {
    var q := t / precision;
    assert t - t % precision == q * precision + 0;
    MultipleIsWhole(q, precision);
  }

  lemma MultipleIsWhole(q: int, p: Span)
    ensures (q * p) % p == 0
  {
    var m, r := (q * p) / p, (q * p) % p;
    assert q * p == m * p + r;
    assert (q - m) * p == r;
    MultipleBound(q - m, p);
  }

  lemma MultipleBound(k: int, p: Span)
    ensures k >= 1 ==> k * p >= p
    ensures k <= -1 ==> k * p + p <= 0
  {
    if k <= -1 {
      assert -k * p >= p;
    }
  }

  /** The expiry check of a parsed token, with leeway. */
  predicate Unexpired(exp: int, skew: int, now: int) {
    now < exp + skew
  }

  // ----- configuration

  datatype Settings = Settings(
    secret: string,
    alg: string,
    accessTtl: int,
    refreshTtl: int,
    skew: int,
    blocklistPrefix: string,
    refreshPrefix: string)

  function Defaulted(c: Settings): Settings {
    c.(alg := if c.alg == "" then "HS256" else c.alg,
       accessTtl := if c.accessTtl <= 0 then 30 * MINUTE else c.accessTtl,
       refreshTtl := if c.refreshTtl <= 0 then 72 * HOUR else c.refreshTtl,
       skew := if c.skew < 0 then 0 else c.skew,
       blocklistPrefix := OrDefault(c.blocklistPrefix, ACCESS_BLOCK_PREFIX),
       refreshPrefix := OrDefault(c.refreshPrefix, REFRESH_PREFIX))
  }

  /** The configuration record, filled in place. */
  class Config {
    var value: Settings

    constructor (c: Settings)
      ensures value == c
    {
      value := c;
    }

    method Defaults()
      modifies this
      ensures value == Defaulted(old(value))
      ensures value.secret == old(value.secret) && value.alg == (if old(value.alg) == "" then "HS256" else old(value.alg))
      ensures value.accessTtl == (if old(value.accessTtl) <= 0 then 1_800_000_000_000 else old(value.accessTtl))
      ensures value.refreshTtl == (if old(value.refreshTtl) <= 0 then 259_200_000_000_000 else old(value.refreshTtl))
      ensures value.skew == (if old(value.skew) < 0 then 0 else old(value.skew))
      ensures value.blocklistPrefix
              == (if old(value.blocklistPrefix) == "" then "auth:access:block:" else old(value.blocklistPrefix))
      ensures value.refreshPrefix == (if old(value.refreshPrefix) == "" then "auth:refresh:" else old(value.refreshPrefix))
    {
      if value.alg == "" {
        value := value.(alg := "HS256");
      }
      if value.accessTtl <= 0 {
        value := value.(accessTtl := 30 * MINUTE);
      }
      if value.refreshTtl <= 0 {
        value := value.(refreshTtl := 72 * HOUR);
      }
      if value.skew < 0 {
        value := value.(skew := 0);
      }
      if value.blocklistPrefix == "" {
        value := value.(blocklistPrefix := ACCESS_BLOCK_PREFIX);
      }
      if value.refreshPrefix == "" {
        value := value.(refreshPrefix := REFRESH_PREFIX);
      }
    }
  }

  /** Filling is complete, stable, and leaves a complete configuration as it is. */
  lemma DefaultedCompletes(c: Settings)
    ensures var d := Defaulted(c);
            && d.accessTtl > 0 && d.refreshTtl > 0 && d.skew >= 0
            && d.alg != "" && d.blocklistPrefix != "" && d.refreshPrefix != "" && d.secret == c.secret
            && Defaulted(d) == d
    ensures (c.accessTtl > 0 && c.refreshTtl > 0 && c.skew >= 0 && c.alg != "" && c.blocklistPrefix != ""
             && c.refreshPrefix != "") <==> Defaulted(c) == c
  {
    assert ACCESS_BLOCK_PREFIX != "" && REFRESH_PREFIX != "";
  }

  // ----- claims

  /** A signed token: its claims, and the secret of the signature. Only minted tokens parse. */
  datatype Signed<+C> = Signed(claims: C, secret: string)

  datatype AccessClaims = AccessClaims(
    userId: int, sequence: string, sessionVersion: int, tokenType: string, id: string, expiresAt: Option<int>)

  datatype RefreshClaims = RefreshClaims(userId: int, sequence: string, tokenType: string, id: string, expiresAt: Option<int>)

  datatype SimpleClaims = SimpleClaims(userId: int, sequence: string, version: int, id: string, expiresAt: Option<int>)

  datatype Reason =
    | SecretMissing | StoreMissing | BadSignature | Expired | WrongType | Revoked | Superseded | MissingId
    | UserMismatch | SequenceMismatch | Invalidated | ClaimsMissing | StoreFailed(error: StoreError)

  datatype Outcome<+T> = Good(value: T) | Bad(reason: Reason)

  /** The signature and expiry checks of parsing; a token without an expiry never expires. */
  function Parse<C>(token: Signed<C>, expiresAt: Option<int>, secret: string, skew: int, now: int): Outcome<C> {
    if token.secret != secret then Bad(BadSignature)
    else if expiresAt.Some? && !Unexpired(expiresAt.value, skew, now) then Bad(Expired)
    else Good(token.claims)
  }

  // ----- access tokens

  /** The verdict on an access token, given what the blocklist answers for its id. */
  function AccessVerdict(token: Signed<AccessClaims>, c: Settings, now: int, blocked: Reply<bool>): Outcome<AccessClaims> {
    var parsed := Parse(token, token.claims.expiresAt, c.secret, c.skew, now);
    if c.secret == "" then Bad(SecretMissing)
    else if parsed.Bad? then parsed
    else if token.claims.tokenType != "access" then Bad(WrongType)
    else if blocked.Refused? then Bad(StoreFailed(blocked.error))
    else if blocked.value then Bad(Revoked)
    else parsed
  }

  /** Accepted exactly when signed by this secret, unexpired, of type access, and not blocked. */
  lemma AccessAcceptedExactly(token: Signed<AccessClaims>, c: Settings, now: int, blocked: Reply<bool>)
    ensures AccessVerdict(token, c, now, blocked).Good? <==>
            && c.secret != "" && token.secret == c.secret && token.claims.tokenType == "access"
            && (token.claims.expiresAt.None? || now < token.claims.expiresAt.value + c.skew)
            && blocked == Done(false)
    ensures AccessVerdict(token, c, now, blocked).Good? ==> AccessVerdict(token, c, now, blocked).value == token.claims
  {
  }

  /** What the blocklist answers; without a blocklist or an id there is nothing to ask. */
  function BlockAnswer(list: Blocklist?, id: string, up: bool): Reply<bool>
    reads list, if list == null then null else list.client
  {
    if list == null || id == "" then Done(false)
    else if up then Done(Lookup(list.client.db, list.client.now, list.prefix + id).Some?)
    else Refused(Unavailable)
  }

  method VerifyAccessToken(token: Signed<AccessClaims>, cfg: Settings, now: int, list: Blocklist?, up: bool)
    returns (r: Outcome<AccessClaims>)
    ensures r == AccessVerdict(token, Defaulted(cfg), now, BlockAnswer(list, token.claims.id, up))
    ensures var x := token.claims;
            var key := if list == null then "" else list.prefix + x.id;
            r == if cfg.secret == "" then Bad(SecretMissing)
                 else if token.secret != cfg.secret then Bad(BadSignature)
                 else if x.expiresAt.Some? && x.expiresAt.value + (if cfg.skew < 0 then 0 else cfg.skew) <= now
                 then Bad(Expired)
                 else if x.tokenType != "access" then Bad(WrongType)
                 else if list == null || x.id == "" then Good(x)
                 else if !up then Bad(StoreFailed(Unavailable))
                 else if Present(list.client.db, list.client.now, key) then Bad(Revoked)
                 else Good(x)
  {
    var config := new Config(cfg);
    config.Defaults();
    var c := config.value;
    if c.secret == "" {
      return Bad(SecretMissing);
    }
    var parsed := Parse(token, token.claims.expiresAt, c.secret, c.skew, now);
    if parsed.Bad? {
      return parsed;
    }
    var claims := parsed.value;
    if claims.tokenType != "access" {
      return Bad(WrongType);
    }
    if list != null && claims.id != "" {
      var blocked := list.IsBlocked(claims.id, up);
      if blocked.Refused? {
        return Bad(StoreFailed(blocked.error));
      }
      if blocked.value {
        return Bad(Revoked);
      }
    }
    return Good(claims);
  }

  /** A missing counter is tolerated as version 0; another failure is not. */
  function SessionCheck(claims: AccessClaims, current: Reply<int>): Outcome<AccessClaims> {
    match current
    case Refused(NotFound) => Good(claims)
    case Refused(e) => Bad(StoreFailed(e))
    case Done(v) => if v > 0 && claims.sessionVersion != v then Bad(Superseded) else Good(claims)
  }

  function SessionAnswer(versions: SessionVersions, userId: int, up: bool): Reply<int>
    reads versions.client
  {
    if up then Counter(Lookup(versions.client.db, versions.client.now, versions.prefix + Decimal(userId)))
    else Refused(Unavailable)
  }

  method VerifyAccessTokenWithVersion(token: Signed<AccessClaims>, cfg: Settings, now: int, list: Blocklist?,
                                      versions: SessionVersions?, blockUp: bool, versionUp: bool)
    returns (r: Outcome<AccessClaims>)
    ensures var a := AccessVerdict(token, Defaulted(cfg), now, BlockAnswer(list, token.claims.id, blockUp));
            r == if a.Bad? || versions == null then a
                 else SessionCheck(a.value, SessionAnswer(versions, token.claims.userId, versionUp))
    ensures var a := AccessVerdict(token, Defaulted(cfg), now, BlockAnswer(list, token.claims.id, blockUp));
            a.Good? && versions != null ==>
              var key := versions.prefix + Decimal(token.claims.userId);
              var db, live := versions.client.db, Present(versions.client.db, versions.client.now, key);
              && (r.Good? <==>
                    && versionUp
                    && (live ==> db[key].value.Number?
                                 && (db[key].value.n <= 0 || db[key].value.n == token.claims.sessionVersion)))
              && (!versionUp ==> r == Bad(StoreFailed(Unavailable)))
              && (versionUp && live && db[key].value.Number? && r.Bad? ==> r == Bad(Superseded))
              && (r.Good? ==> r.value == token.claims)
  {
    AccessAcceptedExactly(token, Defaulted(cfg), now, BlockAnswer(list, token.claims.id, blockUp));
    r := VerifyAccessToken(token, cfg, now, list, blockUp);
    if r.Bad? || versions == null {
      return;
    }
    var current := versions.Get(r.value.userId, versionUp);
    if current.Refused? && current.error != NotFound {
      return Bad(StoreFailed(current.error));
    }
    var v := if current.Done? then current.value else 0;
    if v > 0 && r.value.sessionVersion != v {
      return Bad(Superseded);
    }
  }

  /** The blocklist ttl of a revocation: the time left, but at least a second; the configured ttl without an expiry. */
  function RevokeTtl(expiresAt: Option<int>, accessTtl: int, now: int): (ttl: int)
    ensures ttl > 0
    ensures expiresAt.Some? ==> now + ttl >= expiresAt.value
  {
    var left := if expiresAt.Some? then expiresAt.value - now else accessTtl;
    if left <= 0 then SECOND else left
  }

  /** `now` is when the remaining time is measured; the store uses its own clock for the ttl. */
  method RevokeAccessToken(claims: Option<AccessClaims>, cfg: Settings, now: int, list: Blocklist?, up: bool)
    returns (r: Outcome<()>)
    modifies if list == null then null else list.client
    ensures r.Good? <==> claims.Some? && claims.value.id != "" && list != null && up
    ensures list != null ==> list.client.now == old(list.client.now)
    ensures r.Good? ==>
              list.client.db == Set(old(list.client.db), list.client.now, list.prefix + claims.value.id, Mark,
                                    RevokeTtl(claims.value.expiresAt, cfg.accessTtl, now))
    ensures r.Good? ==>
              var left := if claims.value.expiresAt == None then cfg.accessTtl else claims.value.expiresAt.value - now;
              var ttl := if left <= 0 then 1_000_000_000 else left;
              list.client.db == old(list.client.db)[list.prefix + claims.value.id := Entry(Mark, Some(list.client.now + ttl))]
    ensures r.Bad? && list != null ==> list.client.db == old(list.client.db)
    ensures r.Bad? ==> r.reason == if claims.None? || claims.value.id == "" then ClaimsMissing
                                   else if list == null then StoreMissing else StoreFailed(Unavailable)
  {
    if claims.None? || claims.value.id == "" {
      return Bad(ClaimsMissing);
    }
    if list == null {
      return Bad(StoreMissing);
    }
    var ttl := cfg.accessTtl;
    if claims.value.expiresAt.Some? {
      ttl := claims.value.expiresAt.value - now;
    }
    if ttl <= 0 {
      ttl := SECOND;
    }
    var b := list.Block(claims.value.id, ttl, up);
    r := if b.Done? then Good(()) else Bad(StoreFailed(b.error));
  }

  // ----- token pairs

  datatype TokenPair = TokenPair(access: Signed<AccessClaims>, refresh: Signed<RefreshClaims>)

  function MintPair(userId: int, sequence: string, sessionVersion: int, c: Settings, now: int, precision: Span,
                    accessId: string, refreshId: string): TokenPair {
    TokenPair(
      Signed(AccessClaims(userId, sequence, sessionVersion, "access", accessId,
                          Some(NumericDate(now + c.accessTtl, precision))), c.secret),
      Signed(RefreshClaims(userId, sequence, "refresh", refreshId,
                           Some(NumericDate(now + c.refreshTtl, precision))), c.secret))
  }

  /** A pair handed out with a store has its refresh id saved, under metadata that matches its claims. */
  method GenerateTokenPairWithVersion(userId: int, sequence: string, sessionVersion: int, cfg: Settings, now: int,
                                      precision: Span, accessId: string, refreshId: string, store: RefreshStore?, up: bool)
    returns (r: Outcome<TokenPair>)
    modifies if store == null then null else store.client
    ensures r.Good? <==> cfg.secret != "" && (store != null ==> refreshId != "" && up)
    ensures r.Good? ==>
              r.value == MintPair(userId, sequence, sessionVersion, Defaulted(cfg), now, precision, accessId, refreshId)
    ensures r.Good? ==>
              var accessTtl := if cfg.accessTtl <= 0 then 1_800_000_000_000 else cfg.accessTtl;
              var refreshTtl := if cfg.refreshTtl <= 0 then 259_200_000_000_000 else cfg.refreshTtl;
              var a, x := r.value.access, r.value.refresh;
              && a.secret == x.secret == cfg.secret
              && a.claims.expiresAt == Some(NumericDate(now + accessTtl, precision))
              && x.claims.expiresAt == Some(NumericDate(now + refreshTtl, precision))
              && a.claims.tokenType == "access" && a.claims.id == accessId
              && x.claims.tokenType == "refresh" && x.claims.id == refreshId
              && a.claims.userId == x.claims.userId == userId && a.claims.sequence == x.claims.sequence == sequence
              && a.claims.sessionVersion == sessionVersion
              && (store != null ==>
                    store.client.db == old(store.client.db)[store.prefix + refreshId :=
                      Entry(Meta(RefreshMetadata(userId, sequence)), Some(store.client.now + refreshTtl))])
    ensures store != null ==> store.client.now == old(store.client.now)
    ensures r.Good? && store != null ==>
              store.client.db == Set(old(store.client.db), store.client.now, store.prefix + refreshId,
                                     Meta(RefreshMetadata(userId, sequence)), Defaulted(cfg).refreshTtl)
    ensures r.Bad? && store != null ==> store.client.db == old(store.client.db)
    ensures r.Bad? ==> r.reason == if cfg.secret == "" then SecretMissing
                                   else StoreFailed(if refreshId == "" then NotConfigured else Unavailable)
  {
    var config := new Config(cfg);
    config.Defaults();
    var c := config.value;
    if c.secret == "" {
      return Bad(SecretMissing);
    }
    var pair := MintPair(userId, sequence, sessionVersion, c, now, precision, accessId, refreshId);
    if store != null {
      var saved := store.Save(refreshId, RefreshMetadata(userId, sequence), c.refreshTtl, up);
      if saved.Refused? {
        return Bad(StoreFailed(saved.error));
      }
    }
    return Good(pair);
  }

  /** The optional cross-check of stored metadata against the claims. */
  function MetaCheck(meta: RefreshMetadata, claims: RefreshClaims): Outcome<RefreshClaims> {
    if meta.userId != 0 && meta.userId != claims.userId then Bad(UserMismatch)
    else if meta.sequence != "" && meta.sequence != claims.sequence then Bad(SequenceMismatch)
    else Good(claims)
  }

  /** Success uses up the stored key; every failure before the store is asked leaves it alone. */
  method ConsumeRefreshToken(token: Signed<RefreshClaims>, cfg: Settings, now: int, store: RefreshStore?, up: bool)
    returns (r: Outcome<RefreshClaims>)
    modifies if store == null then null else store.client
    ensures r.Good? ==>
              && r.value == token.claims && store != null && token.claims.tokenType == "refresh"
              && token.secret == cfg.secret != ""
              && (token.claims.expiresAt.Some? ==> Unexpired(token.claims.expiresAt.value, Defaulted(cfg).skew, now))
              && var key := store.prefix + token.claims.id;
                 && Lookup(old(store.client.db), store.client.now, key).Some?
                 && key !in store.client.db
    ensures store != null ==> store.client.now == old(store.client.now)
    ensures store != null && Parse(token, token.claims.expiresAt, cfg.secret, Defaulted(cfg).skew, now).Bad? ==>
              r.Bad? && store.client.db == old(store.client.db)
    ensures store != null && up && cfg.secret != "" && token.claims.tokenType == "refresh" && token.claims.id != ""
            && Parse(token, token.claims.expiresAt, cfg.secret, Defaulted(cfg).skew, now).Good? ==>
              var hit := Lookup(old(store.client.db), store.client.now, store.prefix + token.claims.id);
              && (hit.None? ==> r == Bad(StoreFailed(NotFound)) && store.client.db == old(store.client.db))
              && (hit.Some? && hit.value.Meta? ==>
                    r == MetaCheck(hit.value.meta, token.claims)
                    && store.client.db == Del(old(store.client.db), store.prefix + token.claims.id))
    ensures var x := token.claims;
            var key := if store == null then "" else store.prefix + x.id;
            if cfg.secret == "" then r == Bad(SecretMissing)
            else if token.secret != cfg.secret then r == Bad(BadSignature)
            else if x.expiresAt.Some? && x.expiresAt.value + (if cfg.skew < 0 then 0 else cfg.skew) <= now
            then r == Bad(Expired)
            else if x.tokenType != "refresh" then r == Bad(WrongType)
            else if x.id == "" then r == Bad(MissingId)
            else if store == null then r == Bad(StoreMissing)
            else if !up then r == Bad(StoreFailed(Unavailable)) && store.client.db == old(store.client.db)
            else if !Present(old(store.client.db), store.client.now, key)
            then r == Bad(StoreFailed(NotFound)) && store.client.db == old(store.client.db)
            else
              && store.client.db == old(store.client.db) - {key}
              && var v := old(store.client.db)[key].value;
                 r == if !v.Meta? then Bad(StoreFailed(Unavailable))
                      else if v.meta.userId != 0 && v.meta.userId != x.userId then Bad(UserMismatch)
                      else if v.meta.sequence != "" && v.meta.sequence != x.sequence then Bad(SequenceMismatch)
                      else Good(x)
  {
    var config := new Config(cfg);
    config.Defaults();
    var c := config.value;
    if c.secret == "" {
      return Bad(SecretMissing);
    }
    var parsed := Parse(token, token.claims.expiresAt, c.secret, c.skew, now);
    if parsed.Bad? {
      return parsed;
    }
    if token.claims.tokenType != "refresh" {
      return Bad(WrongType);
    }
    if token.claims.id == "" {
      return Bad(MissingId);
    }
    if store == null {
      return Bad(StoreMissing);
    }
    var reply := store.Consume(token.claims.id, up);
    if reply.Refused? {
      return Bad(StoreFailed(reply.error));
    }
    r := MetaCheck(reply.value, token.claims);
  }

  // ----- simple tokens

  datatype SimpleSettings = SimpleSettings(secret: string, ttl: int, skew: int)

  function SimpleDefaulted(c: SimpleSettings): SimpleSettings {
    c.(ttl := if c.ttl <= 0 then 7 * 24 * HOUR else c.ttl, skew := if c.skew < 0 then 0 else c.skew)
  }

  datatype SimpleResult = SimpleResult(token: Signed<SimpleClaims>, expiresAt: int, version: int)

  /** A login: the version is advanced first, and only then is the clock read and the token signed. */
  method GenerateSimpleToken(userId: int, sequence: string, cfg: SimpleSettings, versions: TokenVersions?, signAt: int,
                             precision: Span, id: string, up: bool)
    returns (r: Outcome<SimpleResult>)
    modifies if versions == null then null else versions.client
    ensures r.Good? ==>
              && versions != null && cfg.secret != ""
              && Next(old(versions.client.db), versions.client.now, Render(Version(userId))) == Some(r.value.version)
              && versions.client.db == Incremented(old(versions.client.db), versions.client.now, Render(Version(userId)),
                                                   versions.ttl)
              && var ttl := if cfg.ttl <= 0 then 604_800_000_000_000 else cfg.ttl;
                 && r.value.token == Signed(SimpleClaims(userId, sequence, r.value.version, id,
                                                         Some(NumericDate(signAt + ttl, precision))), cfg.secret)
                 && r.value.expiresAt == signAt + ttl
    ensures r.Bad? && versions != null ==> versions.client.db == old(versions.client.db)
    ensures versions != null ==> versions.client.now == old(versions.client.now)
    ensures r.Bad? && versions != null && cfg.secret != "" && up ==>
              Next(old(versions.client.db), versions.client.now, Render(Version(userId))).None?
    ensures r.Bad? ==> r.reason == if cfg.secret == "" then SecretMissing
                                   else if versions == null then StoreMissing else StoreFailed(Unavailable)
  {
    var c := SimpleDefaulted(cfg);
    if c.secret == "" {
      return Bad(SecretMissing);
    }
    if versions == null {
      return Bad(StoreMissing);
    }
    var version := versions.IncrVersion(userId, up);
    if version.Refused? {
      return Bad(StoreFailed(version.error));
    }
    var expiresAt := signAt + c.ttl;
    var claims := SimpleClaims(userId, sequence, version.value, id, Some(NumericDate(expiresAt, precision)));
    return Good(SimpleResult(Signed(claims, c.secret), expiresAt, version.value));
  }

  /** Accepted exactly when signed by this secret, unexpired, and of the current version. */
  method VerifySimpleToken(token: Signed<SimpleClaims>, cfg: SimpleSettings, now: int, versions: TokenVersions?, up: bool)
    returns (r: Outcome<SimpleClaims>)
    ensures r.Good? <==>
              && cfg.secret != "" && versions != null && token.secret == cfg.secret
              && (token.claims.expiresAt.None? || Unexpired(token.claims.expiresAt.value, SimpleDefaulted(cfg).skew, now))
              && up && VersionRead(versions.client.db, versions.client.now, token.claims.userId) == Done(token.claims.version)
    ensures r.Good? ==> r.value == token.claims
    ensures var x := token.claims;
            var key := "auth:token:ver:" + Decimal(x.userId);
            r == if cfg.secret == "" then Bad(SecretMissing)
                 else if versions == null then Bad(StoreMissing)
                 else if token.secret != cfg.secret then Bad(BadSignature)
                 else if x.expiresAt.Some? && x.expiresAt.value + (if cfg.skew < 0 then 0 else cfg.skew) <= now
                 then Bad(Expired)
                 else if !up then Bad(StoreFailed(Unavailable))
                 else if !Present(versions.client.db, versions.client.now, key)
                 then if x.version == 0 then Good(x) else Bad(Invalidated)
                 else if !versions.client.db[key].value.Number? then Bad(StoreFailed(Unavailable))
                 else if x.version == versions.client.db[key].value.n then Good(x) else Bad(Invalidated)
  {
    var c := SimpleDefaulted(cfg);
    if c.secret == "" {
      return Bad(SecretMissing);
    }
    if versions == null {
      return Bad(StoreMissing);
    }
    var parsed := Parse(token, token.claims.expiresAt, c.secret, c.skew, now);
    if parsed.Bad? {
      return parsed;
    }
    var current := versions.GetVersion(token.claims.userId, up);
    if current.Refused? {
      return Bad(StoreFailed(current.error));
    }
    if token.claims.version != current.value {
      return Bad(Invalidated);
    }
    return parsed;
  }

  /** Revoking advances the version, so the version of every earlier token is no longer the current one. */
  method RevokeSimpleToken(userId: int, versions: TokenVersions?, up: bool) returns (ok: bool)
    modifies if versions == null then null else versions.client
    ensures versions == null ==> !ok
    ensures versions != null ==>
              var key := Render(Version(userId));
              && (ok <==> up && Next(old(versions.client.db), versions.client.now, key).Some?)
              && versions.client.now == old(versions.client.now)
              && versions.client.db == if ok then Incremented(old(versions.client.db), versions.client.now, key, versions.ttl)
                                       else old(versions.client.db)
  {
    if versions == null {
      return false;
    }
    var r := versions.IncrVersion(userId, up);
    ok := r.Done?;
  }
}
