/** A Redis database with key expiry, and the commands the stores use on it. */
module RedisDb {
  import opened Common

  const MAX_INT64 := 0x7fff_ffff_ffff_ffff

  datatype RefreshMetadata = RefreshMetadata(userId: int, sequence: string)

  /** The strings the stores write: a counter, the JSON of refresh metadata, or the blocklist's "1". */
  datatype Value = Number(n: int) | Meta(meta: RefreshMetadata) | Mark

  datatype Entry = Entry(value: Value, expires: Option<int>)

  type Db = map<string, Entry>

  /** A key whose time to live has elapsed is gone. */
  predicate LiveEntry(e: Entry, now: int) {
    e.expires.None? || now < e.expires.value
  }

  function Lookup(db: Db, now: int, key: string): Option<Value> {
    if key in db && LiveEntry(db[key], now) then Some(db[key].value) else None
  }

  /** The key is there and has not run out. */
  predicate Present(db: Db, now: int, key: string) {
    key in db && (db[key].expires == None || now < db[key].expires.value)
  }

  /** SET key value ttl; a ttl of 0 means none. */
  function Set(db: Db, now: int, key: string, v: Value, ttl: int): Db {
    db[key := Entry(v, if ttl > 0 then Some(now + ttl) else None)]
  }

  /** The number INCR leaves, or None for a value that is no counter or is already the largest. */
  function Next(db: Db, now: int, key: string): Option<int> {
    match Lookup(db, now, key)
    case None => Some(1)
    case Some(Number(n)) => if n < MAX_INT64 then Some(n + 1) else None
    case Some(_) => None
  }

  /** INCR keeps the expiry of a live key and gives a new key none. */
  function Incr(db: Db, now: int, key: string): Db {
    var n := Next(db, now, key);
    if n.None? then db
    else db[key := Entry(Number(n.value), if Lookup(db, now, key).Some? then db[key].expires else None)]
  }

  function Expire(db: Db, now: int, key: string, ttl: int): Db {
    if Lookup(db, now, key).None? then db else db[key := db[key].(expires := Some(now + ttl))]
  }

  function Del(db: Db, key: string): Db {
    map k | k in db && k != key :: db[k]
  }

  /** The server: its database and clock; `up` says whether a command gets through. */
  class Redis {
    var db: Db
    var now: int

    constructor (now: int)
      ensures db == map[] && this.now == now
    {
      db, this.now := map[], now;
    }

    method SetKey(key: string, v: Value, ttl: int, up: bool) returns (ok: bool)
      modifies `db
      ensures ok == up && db == if up then Set(old(db), now, key, v, ttl) else old(db)
      ensures ok ==> db == old(db)[key := Entry(v, if ttl > 0 then Some(now + ttl) else None)]
    {
      if up {
        db := db[key := Entry(v, if ttl > 0 then Some(now + ttl) else None)];
      }
      ok := up;
    }

    method GetDel(key: string, up: bool) returns (ok: bool, v: Option<Value>)
      modifies `db
      ensures ok == up && v == (if up then Lookup(old(db), now, key) else None)
      ensures db == if v.Some? then Del(old(db), key) else old(db)
      ensures v == (if up && Present(old(db), now, key) then Some(old(db)[key].value) else None)
      ensures v.Some? ==> db == old(db) - {key}
    {
      ok, v := up, None;
      if up && key in db && LiveEntry(db[key], now) {
        v := Some(db[key].value);
        db := map k | k in db && k != key :: db[k];
      }
    }

    method Get(key: string, up: bool) returns (ok: bool, v: Option<Value>)
      ensures ok == up && v == if up then Lookup(db, now, key) else None
      ensures v == if up && Present(db, now, key) then Some(db[key].value) else None
    {
      ok, v := up, None;
      if up && key in db && LiveEntry(db[key], now) {
        v := Some(db[key].value);
      }
    }

    method IncrKey(key: string, up: bool) returns (r: Option<int>)
      modifies `db
      ensures r == if up then Next(old(db), now, key) else None
      ensures db == if up then Incr(old(db), now, key) else old(db)
      ensures up && !Present(old(db), now, key) ==> r == Some(1) && db == old(db)[key := Entry(Number(1), None)]
      ensures up && Present(old(db), now, key) ==>
                var e := old(db)[key];
                if e.value.Number? && e.value.n < 0x7fff_ffff_ffff_ffff
                then r == Some(e.value.n + 1) && db == old(db)[key := Entry(Number(e.value.n + 1), e.expires)]
                else r == None && db == old(db)
    {
      if !up {
        return None;
      }
      var n, expires := 0, None;
      if key in db && LiveEntry(db[key], now) {
        if !db[key].value.Number? {
          return None;
        }
        n, expires := db[key].value.n, db[key].expires;
      }
      if key in db && LiveEntry(db[key], now) && n >= MAX_INT64 {
        return None;
      }
      db := db[key := Entry(Number(n + 1), expires)];
      r := Some(n + 1);
    }

    method ExpireKey(key: string, ttl: int)
      modifies `db
      ensures db == Expire(old(db), now, key, ttl)
      ensures db == if Present(old(db), now, key) then old(db)[key := Entry(old(db)[key].value, Some(now + ttl))] else old(db)
    {
      if key in db && LiveEntry(db[key], now) {
        db := db[key := db[key].(expires := Some(now + ttl))];
      }
    }
  }
}
