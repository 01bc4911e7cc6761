/** An abstract Redis-like key-value store with per-key expiry and a clock,
    restricted to the commands the resolver sends: GET, SET and EXPIRE, and the
    two MULTI batches built from them. */
module Store {
  import opened Wrappers

  /** A stored string and its absolute expiry time in seconds; `None` is a key
      without a time to live (what SET leaves behind). */
  datatype Entry = Entry(value: string, expiresAt: Option<int>)

  type Table = map<string, Entry>

  /** A transport or protocol failure of the store connection. */
  datatype StoreError = StoreError(message: string)

  /** One reply of a MULTI batch: a status line, a bulk string or nil, an integer. */
  datatype Reply = Status(text: string) | Bulk(data: Option<string>) | Integer(n: int)

  /** What one MULTI batch returns and leaves behind. */
  datatype Exec = Exec(replies: seq<Reply>, table: Table)

  predicate Live(e: Entry, now: int) {
    e.expiresAt.None? || now < e.expiresAt.value
  }

  /** The key exists at time `now`: it is stored and has not expired. */
  predicate Present(t: Table, now: int, key: string) {
    key in t && Live(t[key], now)
  }

  /** `t` and `u` hold the same thing under `k`. */
  predicate SameAt(t: Table, u: Table, k: string) {
    (k in t <==> k in u) && (k in t ==> t[k] == u[k])
  }

  /** GET: the value of an existing key, nil for a missing or expired one. */
  function Fetch(t: Table, now: int, key: string): (v: Option<string>)
    ensures v.Some? <==> Present(t, now, key)
    ensures v.Some? ==> v.value == t[key].value
  {
    if Present(t, now, key) then Some(t[key].value) else None
  }

  /** SET: store `value` under `key`, dropping any time to live it had. */
  function Put(t: Table, key: string, value: string): (u: Table)
    ensures key in u && u[key] == Entry(value, None)
    ensures forall now :: Fetch(u, now, key) == Some(value)
    ensures forall k :: k != key ==> SameAt(t, u, k)
  {
    t[key := Entry(value, None)]
  }

  /** EXPIRE: on an existing key, set its expiry `ttl` seconds from `now`
      (a `ttl` that is not positive deletes the key); on a missing or expired
      key, do nothing. */
  function Touch(t: Table, now: int, key: string, ttl: int): (u: Table)
    ensures !Present(t, now, key) ==> u == t
    ensures Present(t, now, key) && ttl > 0 ==>
      key in u && u[key] == Entry(t[key].value, Some(now + ttl))
    ensures Present(t, now, key) && ttl <= 0 ==> key !in u
    ensures forall k :: k != key ==> SameAt(t, u, k)
  {
    if !Present(t, now, key) then t
    else if ttl > 0 then t[key := Entry(t[key].value, Some(now + ttl))]
    else t - {key}
  }

  /** The MULTI / SELECT / GET / EXPIRE batch of the read path. */
  function GetExpire(t: Table, now: int, key: string, ttl: int): (r: Exec)
    ensures |r.replies| == 3 && r.replies[1] == Bulk(Fetch(t, now, key))
    ensures r.table == Touch(t, now, key, ttl)
  {
    Exec([Status("OK"), Bulk(Fetch(t, now, key)), Integer(if Present(t, now, key) then 1 else 0)],
         Touch(t, now, key, ttl))
  }

  /** The MULTI / SELECT / SET / EXPIRE batch of the write path. */
  function SetExpire(t: Table, now: int, key: string, value: string, ttl: int): (r: Exec)
    ensures ttl > 0 ==> key in r.table && r.table[key] == Entry(value, Some(now + ttl))
    ensures ttl <= 0 ==> key !in r.table
    ensures forall k :: k != key ==> SameAt(t, r.table, k)
  {
    Exec([Status("OK"), Status("OK"), Integer(1)], Touch(Put(t, key, value), now, key, ttl))
  }

  /** Sliding expiration: right after EXPIRE touches an existing key, the key
      lives exactly `ttl` seconds more, with its value unchanged, and a missing
      key stays missing. */
  lemma TouchThenFetch(t: Table, now: int, key: string, ttl: int, later: int)
    requires now <= later
    ensures Fetch(Touch(t, now, key, ttl), later, key) ==
      if Present(t, now, key) && later < now + ttl then Some(t[key].value) else None
  {
  }

  /** A write followed by EXPIRE leaves the value readable for exactly `ttl` seconds. */
  lemma SetExpireThenFetch(t: Table, now: int, key: string, value: string, ttl: int, later: int)
    requires now <= later
    ensures Fetch(SetExpire(t, now, key, value, ttl).table, later, key) ==
      if later < now + ttl then Some(value) else None
  {
  }

  /** A key that is missing at some time is still missing later, unless written. */
  lemma AbsentStaysAbsent(t: Table, now: int, key: string, later: int)
    requires now <= later
    requires !Present(t, now, key)
    ensures !Present(t, later, key)
  {
  }

  /** The store: its contents and its clock (whole seconds). */
  class TtlStore {
    var entries: Table
    var clock: int

    constructor (start: int)
      ensures entries == map[] && clock == start
    {
      entries := map[];
      clock := start;
    }

    /** Time passes. */
    method Tick(seconds: nat)
      modifies this
      ensures clock == old(clock) + seconds && entries == old(entries)
    {
      clock := clock + seconds;
    }

    method Get(key: string) returns (v: Option<string>)
      ensures v == Fetch(entries, clock, key)
    {
      if key in entries && Live(entries[key], clock) {
        v := Some(entries[key].value);
      } else {
        v := None;
      }
    }

    method Set(key: string, value: string)
      modifies this
      ensures entries == Put(old(entries), key, value) && clock == old(clock)
    {
      entries := entries[key := Entry(value, None)];
    }

    /** Replies 1 when the key existed and 0 otherwise, as Redis does. */
    method Expire(key: string, ttl: int) returns (n: int)
      modifies this
      ensures n == (if Present(old(entries), old(clock), key) then 1 else 0)
      ensures entries == Touch(old(entries), old(clock), key, ttl) && clock == old(clock)
    {
      if key in entries && Live(entries[key], clock) {
        n := 1;
        if ttl > 0 {
          entries := entries[key := Entry(entries[key].value, Some(clock + ttl))];
        } else {
          entries := entries - {key};
        }
      } else {
        n := 0;
      }
    }

    /** The read batch, executed atomically; `fault` is the transport failure,
        if any, in which case nothing is executed. */
    method MultiGetExpire(key: string, ttl: int, fault: Option<StoreError>)
      returns (r: Result<seq<Reply>, StoreError>)
      modifies this
      ensures fault.Some? ==> r == Failure(fault.value) && entries == old(entries)
      ensures fault.None? ==>
        var exec := GetExpire(old(entries), old(clock), key, ttl);
        r == Success(exec.replies) && entries == exec.table
      ensures clock == old(clock)
    {
      if fault.Some? {
        return Failure(fault.value);
      }
      var selected := Reply.Status("OK");
      var got := Get(key);
      var expired := Expire(key, ttl);
      return Success([selected, Bulk(got), Integer(expired)]);
    }

    /** The write batch, executed atomically, with the same failure convention. */
    method MultiSetExpire(key: string, value: string, ttl: int, fault: Option<StoreError>)
      returns (r: Result<seq<Reply>, StoreError>)
      modifies this
      ensures fault.Some? ==> r == Failure(fault.value) && entries == old(entries)
      ensures fault.None? ==>
        var exec := SetExpire(old(entries), old(clock), key, value, ttl);
        r == Success(exec.replies) && entries == exec.table
      ensures clock == old(clock)
    {
      if fault.Some? {
        return Failure(fault.value);
      }
      var selected := Reply.Status("OK");
      Set(key, value);
      var expired := Expire(key, ttl);
      return Success([selected, Status("OK"), Integer(expired)]);
    }
  }
}
