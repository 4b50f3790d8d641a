/** The four Redis-backed stores. `up` arguments say whether a Redis command gets through. */
module Stores {
  import opened Common
  import opened Keys
  import opened RedisDb

  datatype StoreError = NotConfigured | NotFound | Unavailable

  datatype Reply<+T> = Done(value: T) | Refused(error: StoreError)

  function OrDefault(prefix: string, default: string): string {
    if prefix == "" then default else prefix
  }

  /** Refresh tokens as one-time keys. */
  class RefreshStore {
    const client: Redis
    const prefix: string

    constructor (client: Redis, prefix: string)
      ensures this.client == client && this.prefix == OrDefault(prefix, REFRESH_PREFIX)
    {
      this.client, this.prefix := client, OrDefault(prefix, REFRESH_PREFIX);
    }

    method Save(jti: string, meta: RefreshMetadata, ttl: int, up: bool) returns (r: Reply<()>)
      modifies client`db
      ensures r.Done? <==> jti != "" && up
      ensures client.db == if r.Done? then Set(old(client.db), client.now, prefix + jti, Meta(meta), ttl) else old(client.db)
      ensures r.Refused? ==> r.error == if jti == "" then NotConfigured else Unavailable
    {
      if jti == "" {
        return Refused(NotConfigured);
      }
      var ok := client.SetKey(prefix + jti, Meta(meta), ttl, up);
      r := if ok then Done(()) else Refused(Unavailable);
    }

    /** A hit removes the key; a value that is not refresh metadata does not decode, but is removed too. */
    method Consume(jti: string, up: bool) returns (r: Reply<RefreshMetadata>)
      modifies client`db
      ensures jti == "" || !up ==> r.Refused? && client.db == old(client.db)
      ensures jti != "" && up ==>
                var hit := Lookup(old(client.db), client.now, prefix + jti);
                && client.db == (if hit.Some? then Del(old(client.db), prefix + jti) else old(client.db))
                && (r.Done? <==> hit.Some? && hit.value.Meta?)
                && (r.Done? ==> hit == Some(Meta(r.value)))
                && (hit.None? <==> r == Refused(NotFound))
      ensures r.Refused? ==> r.error == if jti == "" then NotConfigured
                                        else if !up || Present(old(client.db), client.now, prefix + jti) then Unavailable
                                        else NotFound
    {
      if jti == "" {
        return Refused(NotConfigured);
      }
      var ok, v := client.GetDel(prefix + jti, up);
      if !ok {
        return Refused(Unavailable);
      }
      if v.None? {
        return Refused(NotFound);
      }
      r := if v.value.Meta? then Done(v.value.meta) else Refused(Unavailable);
    }
  }

  /** Revoked access tokens, each for a time. */
  class Blocklist {
    const client: Redis
    const prefix: string

    constructor (client: Redis, prefix: string)
      ensures this.client == client && this.prefix == OrDefault(prefix, ACCESS_BLOCK_PREFIX)
    {
      this.client, this.prefix := client, OrDefault(prefix, ACCESS_BLOCK_PREFIX);
    }

    method Block(jti: string, ttl: int, up: bool) returns (r: Reply<()>)
      modifies client`db
      ensures r.Done? <==> jti != "" && up
      ensures client.db == if r.Done? then Set(old(client.db), client.now, prefix + jti, Mark, ttl) else old(client.db)
      ensures r.Refused? ==> r.error == if jti == "" then NotConfigured else Unavailable
    {
      if jti == "" {
        return Refused(NotConfigured);
      }
      var ok := client.SetKey(prefix + jti, Mark, ttl, up);
      r := if ok then Done(()) else Refused(Unavailable);
    }

    method IsBlocked(jti: string, up: bool) returns (r: Reply<bool>)
      ensures jti == "" ==> r == Done(false)
      ensures jti != "" ==> r == if up then Done(Present(client.db, client.now, prefix + jti)) else Refused(Unavailable)
    {
      if jti == "" {
        return Done(false);
      }
      var ok, v := client.Get(prefix + jti, up);
      r := if ok then Done(v.Some?) else Refused(Unavailable);
    }
  }

  /** What a counter key reads as: the number, or missing. Another value does not parse. */
  function Counter(v: Option<Value>): Reply<int> {
    match v
    case None => Refused(NotFound)
    case Some(Number(n)) => Done(n)
    case Some(_) => Refused(Unavailable)
  }

  class SessionVersions {
    const client: Redis
    const prefix: string

    constructor (client: Redis, prefix: string)
      ensures this.client == client && this.prefix == OrDefault(prefix, SESSION_PREFIX)
    {
      this.client, this.prefix := client, OrDefault(prefix, SESSION_PREFIX);
    }

    method Get(userId: int, up: bool) returns (r: Reply<int>)
      ensures r == if up then Counter(Lookup(client.db, client.now, prefix + Decimal(userId))) else Refused(Unavailable)
      ensures var key := prefix + Decimal(userId);
              r == if !up then Refused(Unavailable)
                   else if !Present(client.db, client.now, key) then Refused(NotFound)
                   else if client.db[key].value.Number? then Done(client.db[key].value.n) else Refused(Unavailable)
    {
      var ok, v := client.Get(prefix + Decimal(userId), up);
      r := if ok then Counter(v) else Refused(Unavailable);
    }

    method Increment(userId: int, up: bool) returns (r: Reply<int>)
      modifies client`db
      ensures var key := prefix + Decimal(userId); var n := if up then Next(old(client.db), client.now, key) else None;
              && r == (if n.Some? then Done(n.value) else Refused(Unavailable))
              && client.db == if n.Some? then Incr(old(client.db), client.now, key) else old(client.db)
    {
      var n := client.IncrKey(prefix + Decimal(userId), up);
      r := if n.Some? then Done(n.value) else Refused(Unavailable);
    }
  }

  /** The database after a successful version increment: INCR, then EXPIRE when a ttl is configured. */
  function Incremented(db: Db, now: int, key: string, ttl: int): Db {
    if ttl > 0 then Expire(Incr(db, now, key), now, key, ttl) else Incr(db, now, key)
  }

  /** A missing key is version 0: the user has never logged in, or the version has expired. */
  function VersionRead(db: Db, now: int, userId: int): Reply<int> {
    var v := Lookup(db, now, Render(Version(userId)));
    if v.None? then Done(0) else Counter(v)
  }

  /** Versions of simple tokens; `ttl` 0 keeps them for ever. */
  class TokenVersions {
    const client: Redis
    const ttl: int

    constructor (client: Redis, ttl: int)
      ensures this.client == client && this.ttl == ttl
    {
      this.client, this.ttl := client, ttl;
    }

    method IncrVersion(userId: int, up: bool) returns (r: Reply<int>)
      modifies client`db
      ensures var key := Render(Version(userId)); var n := if up then Next(old(client.db), client.now, key) else None;
              && r == (if n.Some? then Done(n.value) else Refused(Unavailable))
              && client.db == if n.Some? then Incremented(old(client.db), client.now, key, ttl) else old(client.db)
    {
      var key := TOKEN_PREFIX + Decimal(userId);
      var n := client.IncrKey(key, up);
      if n.None? {
        return Refused(Unavailable);
      }
      if ttl > 0 {
        client.ExpireKey(key, ttl);
      }
      r := Done(n.value);
    }

    method GetVersion(userId: int, up: bool) returns (r: Reply<int>)
      ensures r == if up then VersionRead(client.db, client.now, userId) else Refused(Unavailable)
      ensures var key := "auth:token:ver:" + Decimal(userId);
              r == if !up then Refused(Unavailable)
                   else if !Present(client.db, client.now, key) then Done(0)
                   else if client.db[key].value.Number? then Done(client.db[key].value.n) else Refused(Unavailable)
    {
      var ok, v := client.Get(TOKEN_PREFIX + Decimal(userId), up);
      if !ok {
        return Refused(Unavailable);
      }
      r := if v.None? then Done(0) else Counter(v);
    }
  }

  /** What is set is readable until its ttl elapses, and for ever without one; no other key changes. */
  lemma SetReads(db: Db, now: int, key: string, v: Value, ttl: int, later: int)
    requires now <= later
    ensures Lookup(Set(db, now, key, v, ttl), later, key) == if ttl <= 0 || later < now + ttl then Some(v) else None
    ensures forall k :: k != key ==> Lookup(Set(db, now, key, v, ttl), later, k) == Lookup(db, later, k)
  {
  }

  /** An increment makes the counter readable at the new number until its ttl elapses, and for ever without one. */
  lemma IncrementedReads(db: Db, now: int, key: string, ttl: int, later: int)
    requires Next(db, now, key).Some? && now <= later
    requires ttl > 0 || key !in db || db[key].expires.None?
    ensures var n := Next(db, now, key).value;
            Lookup(Incremented(db, now, key, ttl), later, key)
            == if ttl <= 0 || later < now + ttl then Some(Number(n)) else None
    ensures forall k :: k != key ==> Lookup(Incremented(db, now, key, ttl), later, k) == Lookup(db, later, k)
  {
  }
}
