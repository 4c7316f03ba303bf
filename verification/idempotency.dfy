/**
 Idempotency keys over three drivers: the in-memory map, the Postgres table and the
 Redis keyspace (internal/core/idempotency). Each mutex-held method, SQL statement
 and Redis command is a function from the stored rows to the stored rows; the
 classes are the drivers' methods, proved against them.
 */
module Idempotency {
  import opened Wrappers

  type Key = string

  datatype Status = InFlight | Done

  datatype Request = Request(key: Key, fingerprint: string) {
    predicate IsComplete() {
      key != "" && fingerprint != ""
    }
  }

  /** A stored reservation. A Redis key exists, and a memory entry counts, until `expiresAt`. */
  datatype Entry = Entry(fingerprint: string, status: Status, response: Option<string>, expiresAt: int) {
    predicate Live(now: int) {
      now < expiresAt
    }
  }

  type Rows = map<Key, Entry>

  datatype Reservation = Reservation(replayed: bool, response: Option<string>)

  datatype Error = Incomplete | Cancelled | Unavailable | Conflict | AlreadyInFlight | NotReserved

  const GRANTED: Result<Reservation, Error> := Ok(Reservation(false, None))

  datatype Driver = Memory | Postgres | Redis

  /** How a command goes: answered, failed without effect, or failed after its effect. */
  datatype Fault = Fine | Lost | Unheard

  /** The memory store fails only on a cancelled context. */
  function FaultError(driver: Driver): Error {
    if driver.Memory? then Cancelled else Unavailable
  }

  // ---- One command each ----

  /** Whether the reserving command may take the key: absent, or expired as the driver tells it. */
  predicate Vacant(driver: Driver, rows: Rows, key: Key, now: int) {
    key !in rows ||
    match driver
    case Memory => rows[key].expiresAt <= now
    case Postgres => rows[key].expiresAt < now
    case Redis => !rows[key].Live(now)
  }

  function Reserved(rows: Rows, req: Request, now: int, ttl: int): Rows {
    rows[req.key := Entry(req.fingerprint, InFlight, None, now + ttl)]
  }

  /** What a reader of the key sees: Redis hides an expired key, the others do not. */
  function Visible(driver: Driver, rows: Rows, key: Key, now: int): Option<Entry> {
    if key in rows && (driver.Redis? ==> rows[key].Live(now)) then Some(rows[key]) else None
  }

  /** Outcomes 3, 4 and 5 of the contract of Reserve. */
  function Decide(held: Entry, req: Request): Result<Reservation, Error> {
    if held.fingerprint != req.fingerprint then Err(Conflict)
    else if held.status == Done then Ok(Reservation(true, held.response))
    else Err(AlreadyInFlight)
  }

  /** The read that follows a refused reservation, on Postgres and Redis. */
  function Inspect(driver: Driver, rows: Rows, req: Request, now: int): Result<Reservation, Error> {
    match Visible(driver, rows, req.key, now)
    case None => Err(AlreadyInFlight)
    case Some(held) => Decide(held, req)
  }

  /** Whether the completing command finds a row to write. */
  predicate Completable(driver: Driver, rows: Rows, key: Key, now: int) {
    && key in rows && rows[key].Live(now)
    && (driver.Postgres? ==> rows[key].status == InFlight)
  }

  /** The completing command; on Redis `fingerprint` is the one read beforehand. */
  function Completed(
    driver: Driver, rows: Rows, key: Key, fingerprint: string, response: Option<string>, now: int): Rows
  {
    if !Completable(driver, rows, key, now) then rows
    else
      rows[key := rows[key].(
        fingerprint := if driver.Redis? then fingerprint else rows[key].fingerprint,
        status := Done,
        response := response)]
  }

  /** The releasing command of the memory and Postgres drivers. */
  function Released(rows: Rows, key: Key): Rows {
    if key in rows && rows[key].status == InFlight then rows - {key} else rows
  }

  function Purged(driver: Driver, rows: Rows, now: int): Rows {
    match driver
    case Memory => map key | key in rows && now < rows[key].expiresAt :: rows[key]
    case Postgres => map key | key in rows && now <= rows[key].expiresAt :: rows[key]
    case Redis => rows
  }

  // ---- Whole calls, when nothing happens in between ----

  /** A reservation: the reserving command, then, where there is one, the read of the key that won. */
  function Reserving(
    driver: Driver, rows: Rows, req: Request, now: int, ttl: int, ask: Fault, read: Fault)
    : (Rows, Result<Reservation, Error>)
  {
    if !req.IsComplete() then (rows, Err(Incomplete))
    else if ask.Lost? then (rows, Err(FaultError(driver)))
    else if Vacant(driver, rows, req.key, now) then
      (Reserved(rows, req, now, ttl), if ask.Fine? then GRANTED else Err(FaultError(driver)))
    else if ask.Unheard? then (rows, Err(FaultError(driver)))
    else if driver.Memory? then (rows, Decide(rows[req.key], req))
    else (rows, if read.Fine? then Inspect(driver, rows, req, now) else Err(FaultError(driver)))
  }

  /** A completion: on Redis a read, then the completing command. */
  function CompletingCall(
    driver: Driver, rows: Rows, key: Key, response: Option<string>, now: int, fetch: Fault, write: Fault)
    : (Rows, Result<(), Error>)
  {
    if driver.Redis? && !fetch.Fine? then (rows, Err(FaultError(driver)))
    else if driver.Redis? && (Visible(driver, rows, key, now).None? || rows[key].status != InFlight) then
      (rows, Err(NotReserved))
    else
      (if write.Lost? || !Completable(driver, rows, key, now) then rows
       else Completed(driver, rows, key, rows[key].fingerprint, response, now),
       if !write.Fine? then Err(FaultError(driver))
       else if Completable(driver, rows, key, now) then Ok(())
       else Err(NotReserved))
  }

  /** A release: on Redis a read, then the releasing command. */
  function ReleasingCall(driver: Driver, rows: Rows, key: Key, now: int, fetch: Fault, write: Fault)
    : (Rows, Result<(), Error>)
  {
    if driver.Redis? && !fetch.Fine? then (rows, Err(FaultError(driver)))
    else if driver.Redis? && (Visible(driver, rows, key, now).None? || rows[key].status != InFlight) then (rows, Ok(()))
    else (if write.Lost? then rows else Released(rows, key), if write.Fine? then Ok(()) else Err(FaultError(driver)))
  }

  function ReserveAlone(driver: Driver, rows: Rows, req: Request, now: int, ttl: int)
    : (Rows, Result<Reservation, Error>)
  {
    Reserving(driver, rows, req, now, ttl, Fine, Fine)
  }

  function CompleteAlone(driver: Driver, rows: Rows, key: Key, response: Option<string>, now: int)
    : (Rows, Result<(), Error>)
  {
    CompletingCall(driver, rows, key, response, now, Fine, Fine)
  }

  function ReleaseAlone(driver: Driver, rows: Rows, key: Key, now: int): Rows {
    ReleasingCall(driver, rows, key, now, Fine, Fine).0
  }

  /**
   Driver substitutability of Reserve: Redis answers as memory always, Postgres
   answers as memory except at the very instant of expiry, where it still refuses.
   */
  lemma ReserveAgreement(rows: Rows, req: Request, now: int, ttl: int)
    ensures ReserveAlone(Redis, rows, req, now, ttl) == ReserveAlone(Memory, rows, req, now, ttl)
    ensures ReserveAlone(Postgres, rows, req, now, ttl).1 == ReserveAlone(Memory, rows, req, now, ttl).1
            <==> !(req.IsComplete() && req.key in rows && rows[req.key].expiresAt == now)
  {
  }

  /**
   Driver substitutability of Complete: Postgres and Redis answer alike always,
   and as memory except on a live key already completed, which memory rewrites.
   */
  lemma CompleteAgreement(rows: Rows, key: Key, response: Option<string>, now: int)
    ensures CompleteAlone(Postgres, rows, key, response, now) == CompleteAlone(Redis, rows, key, response, now)
    ensures CompleteAlone(Postgres, rows, key, response, now) == CompleteAlone(Memory, rows, key, response, now)
            <==> !(key in rows && rows[key].Live(now) && rows[key].status == Done)
  {
  }

  /** A completed, live key is replayed by every driver, and no release reopens it. */
  lemma CompletedKeyIsReplayed(
    driver: Driver, rows: Rows, req: Request, response: Option<string>, now: int, later: int, ttl: int)
    requires req.IsComplete() && req.key in rows
    requires rows[req.key] == Entry(req.fingerprint, InFlight, None, rows[req.key].expiresAt)
    requires now <= later < rows[req.key].expiresAt
    ensures var (done, answer) := CompleteAlone(driver, rows, req.key, response, now);
            && answer == Ok(())
            && ReleaseAlone(driver, done, req.key, later) == done
            && ReserveAlone(driver, done, req, later, ttl) == (done, Ok(Reservation(true, response)))
  {
  }

  // ---- The drivers ----

  class MemoryStore {
    var entries: Rows
    const ttl: int

    constructor (ttl: int)
      ensures this.ttl == ttl && entries == map[]
    {
      this.ttl, entries := ttl, map[];
    }

    method Reserve(cancelled: bool, req: Request, now: int) returns (r: Result<Reservation, Error>)
      modifies this
      ensures req.IsComplete() && cancelled ==> r == Err(Cancelled) && entries == old(entries)
      ensures !(req.IsComplete() && cancelled) ==> (entries, r) == ReserveAlone(Memory, old(entries), req, now, ttl)
      ensures if req.key == "" || req.fingerprint == "" then r == Err(Incomplete) && entries == old(entries)
              else if cancelled then r == Err(Cancelled) && entries == old(entries)
              else if req.key !in old(entries) || old(entries)[req.key].expiresAt <= now then
                && r == Ok(Reservation(false, None))
                && entries == old(entries)[req.key := Entry(req.fingerprint, InFlight, None, now + ttl)]
              else
                && entries == old(entries)
                && var held := entries[req.key];
                   r == if held.fingerprint != req.fingerprint then Err(Conflict)
                        else if held.status == InFlight then Err(AlreadyInFlight)
                        else Ok(Reservation(true, held.response))
    {
      if !req.IsComplete() {
        return Err(Incomplete);
      }
      if cancelled {
        return Err(Cancelled);
      }
      if req.key in entries && entries[req.key].expiresAt > now {
        return Decide(entries[req.key], req);
      }
      entries := entries[req.key := Entry(req.fingerprint, InFlight, None, now + ttl)];
      return GRANTED;
    }

    method Complete(key: Key, response: Option<string>, now: int) returns (r: Result<(), Error>)
      modifies this
      ensures (entries, r) == CompleteAlone(Memory, old(entries), key, response, now)
      ensures r == if key in old(entries) && now < old(entries)[key].expiresAt then Ok(()) else Err(NotReserved)
      ensures r.Ok? ==>
                && key in entries && entries[key].status == Done && entries[key].response == response
                && entries[key].expiresAt == old(entries)[key].expiresAt
                && entries[key].fingerprint == old(entries)[key].fingerprint
      ensures r.Err? ==> entries == old(entries)
      ensures forall other :: other != key ==>
                && (other in entries <==> other in old(entries))
                && (other in entries ==> entries[other] == old(entries)[other])
    {
      if key !in entries || !(entries[key].expiresAt > now) {
        return Err(NotReserved);
      }
      entries := entries[key := entries[key].(status := Done, response := response)];
      return Ok(());
    }

    method Release(key: Key)
      modifies this
      ensures entries == Released(old(entries), key)
      ensures key in entries <==> key in old(entries) && old(entries)[key].status == Done
      ensures forall other :: other in old(entries) && (other != key || old(entries)[other].status == Done) ==>
                other in entries && entries[other] == old(entries)[other]
      ensures forall other :: other in entries ==> other in old(entries)
    {
      if key in entries && entries[key].status == InFlight {
        entries := entries - {key};
      }
    }

    method Purge(now: int) returns (removed: nat)
      modifies this
      ensures entries == Purged(Memory, old(entries), now)
      ensures forall key :: key in entries <==> key in old(entries) && now < old(entries)[key].expiresAt
      ensures forall key :: key in entries ==> entries[key] == old(entries)[key]
      ensures removed == |old(entries)| - |entries|
    {
      removed := 0;
      var keys := entries.Keys;
      ghost var before := entries;
      while keys != {}
        invariant keys <= before.Keys
        invariant entries.Keys <= before.Keys && keys <= entries.Keys
        invariant forall key :: key in entries ==> entries[key] == before[key]
        invariant forall key :: key in before && key !in keys ==> (key in entries <==> now < before[key].expiresAt)
        invariant removed + |entries| == |before|
        decreases keys
      {
        var key :| key in keys;
        keys := keys - {key};
        if !(entries[key].expiresAt > now) {
          RemovalCounts(entries, key);
          entries := entries - {key};
          removed := removed + 1;
        }
      }
      assert entries == Purged(Memory, before, now);
    }
  }

  lemma RemovalCounts(rows: Rows, key: Key)
    requires key in rows
    ensures |rows - {key}| == |rows| - 1
  {
    assert (rows - {key}).Keys == rows.Keys - {key};
    assert |rows.Keys| == |rows|;
    assert |(rows - {key}).Keys| == |rows - {key}|;
  }

  /** The Postgres driver: every statement runs against the shared table, or fails with or without effect. */
  class PostgresStore {
    var table: Rows
    const ttl: int

    constructor (ttl: int)
      ensures this.ttl == ttl && table == map[]
    {
      this.ttl, table := ttl, map[];
    }

    /** INSERT ... ON CONFLICT DO UPDATE ... WHERE expires_at < now() RETURNING key. */
    method Upsert(req: Request, now: int, fault: Fault) returns (granted: Option<bool>)
      modifies this
      ensures granted == if fault.Fine? then Some(Vacant(Postgres, old(table), req.key, now)) else None
      ensures table == if !fault.Lost? && Vacant(Postgres, old(table), req.key, now)
                       then Reserved(old(table), req, now, ttl) else old(table)
    {
      if fault.Lost? {
        return None;
      }
      var free := req.key !in table || table[req.key].expiresAt < now;
      if free {
        table := table[req.key := Entry(req.fingerprint, InFlight, None, now + ttl)];
      }
      return if fault.Fine? then Some(free) else None;
    }

    /** A grant is only ever answered for an absent or expired key, by its own fresh row. */
    method Reserve(req: Request, now: int, ask: Fault, read: Fault) returns (r: Result<Reservation, Error>)
      modifies this
      ensures (table, r) == Reserving(Postgres, old(table), req, now, ttl, ask, read)
      ensures var free := req.key !in old(table) || old(table)[req.key].expiresAt < now;
              var reserved := old(table)[req.key := Entry(req.fingerprint, InFlight, None, now + ttl)];
              if req.key == "" || req.fingerprint == "" then r == Err(Incomplete) && table == old(table)
              else if !ask.Fine? then
                r == Err(Unavailable) && table == if ask.Unheard? && free then reserved else old(table)
              else if free then r == Ok(Reservation(false, None)) && table == reserved
              else
                && table == old(table)
                && r == if !read.Fine? then Err(Unavailable)
                        else if table[req.key].fingerprint != req.fingerprint then Err(Conflict)
                        else if table[req.key].status == InFlight then Err(AlreadyInFlight)
                        else Ok(Reservation(true, table[req.key].response))
    {
      if !req.IsComplete() {
        return Err(Incomplete);
      }
      var granted := Upsert(req, now, ask);
      if granted.None? {
        return Err(Unavailable);
      }
      if granted.value {
        return GRANTED;
      }
      if !read.Fine? {
        return Err(Unavailable);
      }
      if req.key !in table {
        return Err(AlreadyInFlight);
      }
      var held := table[req.key];
      if held.fingerprint != req.fingerprint {
        return Err(Conflict);
      }
      if held.status == Done {
        return Ok(Reservation(true, held.response));
      }
      return Err(AlreadyInFlight);
    }

    method Complete(key: Key, response: Option<string>, now: int, fault: Fault) returns (r: Result<(), Error>)
      modifies this
      ensures (table, r) == CompletingCall(Postgres, old(table), key, response, now, Fine, fault)
      ensures r == if !fault.Fine? then Err(Unavailable)
                   else if key in old(table) && old(table)[key].status == InFlight && now < old(table)[key].expiresAt
                   then Ok(()) else Err(NotReserved)
      ensures table == if !fault.Lost? && key in old(table) && old(table)[key].status == InFlight
                          && now < old(table)[key].expiresAt
                       then old(table)[key := old(table)[key].(status := Done, response := response)] else old(table)
    {
      if fault.Lost? {
        return Err(Unavailable);
      }
      var found := key in table && table[key].status == InFlight && table[key].expiresAt > now;
      if found {
        table := table[key := table[key].(status := Done, response := response)];
      }
      return if !fault.Fine? then Err(Unavailable) else if found then Ok(()) else Err(NotReserved);
    }

    /** A completed key survives every release; a key in flight goes unless the statement had no effect. */
    method Release(key: Key, now: int, fault: Fault) returns (r: Result<(), Error>)
      modifies this
      ensures (table, r) == ReleasingCall(Postgres, old(table), key, now, Fine, fault)
      ensures r.Ok? <==> fault.Fine?
      ensures key in table <==> key in old(table) && (old(table)[key].status == Done || fault.Lost?)
      ensures forall other :: other != key ==>
                (other in table <==> other in old(table)) && (other in table ==> table[other] == old(table)[other])
    {
      if fault.Lost? {
        return Err(Unavailable);
      }
      if key in table && table[key].status == InFlight {
        table := table - {key};
      }
      return if fault.Fine? then Ok(()) else Err(Unavailable);
    }

    method Purge(now: int, fault: Fault) returns (removed: Option<nat>)
      modifies this
      ensures table == if fault.Lost? then old(table) else Purged(Postgres, old(table), now)
      ensures removed.Some? <==> fault.Fine?
      ensures removed.Some? ==> removed.value == |old(table)| - |table|
      ensures forall key :: key in table <==>
                            key in old(table) && (fault.Lost? || now <= old(table)[key].expiresAt)
      ensures forall key :: key in table ==> table[key] == old(table)[key]
    {
      if fault.Lost? {
        return None;
      }
      var kept := map key | key in table && !(table[key].expiresAt < now) :: table[key];
      SubmapCounts(kept, table);
      removed := if fault.Fine? then Some(|table| - |kept|) else None;
      table := kept;
    }
  }

  lemma SubmapCounts(part: Rows, rows: Rows)
    requires part.Keys <= rows.Keys
    ensures |part| <= |rows|
  {
    SubsetCounts(part.Keys, rows.Keys);
    assert |part| == |part.Keys| && |rows| == |rows.Keys|;
  }

  lemma {:induction false} SubsetCounts(a: set<Key>, b: set<Key>)
    requires a <= b
    ensures |a| <= |b|
  {
    if a != {} {
      var x :| x in a;
      SubsetCounts(a - {x}, b - {x});
    }
  }

  /** The Redis driver: SET NX, GET, SET XX KEEPTTL and DEL on the shared keyspace, each of which may fail. */
  class RedisStore {
    var keyspace: Rows
    const ttl: int

    constructor (ttl: int)
      ensures this.ttl == ttl && keyspace == map[]
    {
      this.ttl, keyspace := ttl, map[];
    }

    method Get(key: Key, now: int, fault: Fault) returns (held: Result<Option<Entry>, Error>)
      ensures held == if fault.Fine? then Ok(Visible(Redis, keyspace, key, now)) else Err(Unavailable)
    {
      if !fault.Fine? {
        return Err(Unavailable);
      }
      if key in keyspace && now < keyspace[key].expiresAt {
        return Ok(Some(keyspace[key]));
      }
      return Ok(None);
    }

    method SetNX(req: Request, now: int, fault: Fault) returns (won: Option<bool>)
      modifies this
      ensures won == if fault.Fine? then Some(Vacant(Redis, old(keyspace), req.key, now)) else None
      ensures keyspace == if !fault.Lost? && Vacant(Redis, old(keyspace), req.key, now)
                          then Reserved(old(keyspace), req, now, ttl) else old(keyspace)
    {
      if fault.Lost? {
        return None;
      }
      var free := !(req.key in keyspace && now < keyspace[req.key].expiresAt);
      if free {
        keyspace := keyspace[req.key := Entry(req.fingerprint, InFlight, None, now + ttl)];
      }
      return if fault.Fine? then Some(free) else None;
    }

    method SetXX(key: Key, fingerprint: string, response: Option<string>, now: int, fault: Fault)
      returns (kept: Option<bool>)
      modifies this
      ensures kept == if fault.Fine? then Some(Completable(Redis, old(keyspace), key, now)) else None
      ensures keyspace == if fault.Lost? then old(keyspace)
                          else Completed(Redis, old(keyspace), key, fingerprint, response, now)
    {
      if fault.Lost? {
        return None;
      }
      var held := key in keyspace && now < keyspace[key].expiresAt;
      if held {
        keyspace := keyspace[key := Entry(fingerprint, Done, response, keyspace[key].expiresAt)];
      }
      return if fault.Fine? then Some(held) else None;
    }

    /** A grant is only ever answered for an absent or expired key, by its own fresh entry. */
    method Reserve(req: Request, now: int, ask: Fault, read: Fault) returns (r: Result<Reservation, Error>)
      modifies this
      ensures (keyspace, r) == Reserving(Redis, old(keyspace), req, now, ttl, ask, read)
      ensures var free := req.key !in old(keyspace) || old(keyspace)[req.key].expiresAt <= now;
              var reserved := old(keyspace)[req.key := Entry(req.fingerprint, InFlight, None, now + ttl)];
              if req.key == "" || req.fingerprint == "" then r == Err(Incomplete) && keyspace == old(keyspace)
              else if !ask.Fine? then
                r == Err(Unavailable) && keyspace == if ask.Unheard? && free then reserved else old(keyspace)
              else if free then r == Ok(Reservation(false, None)) && keyspace == reserved
              else
                && keyspace == old(keyspace)
                && r == if !read.Fine? then Err(Unavailable)
                        else if keyspace[req.key].fingerprint != req.fingerprint then Err(Conflict)
                        else if keyspace[req.key].status == InFlight then Err(AlreadyInFlight)
                        else Ok(Reservation(true, keyspace[req.key].response))
    {
      if !req.IsComplete() {
        return Err(Incomplete);
      }
      var won := SetNX(req, now, ask);
      if won.None? {
        return Err(Unavailable);
      }
      if won.value {
        return GRANTED;
      }
      var held := Get(req.key, now, read);
      if held.Err? {
        return Err(held.error);
      }
      match held.value
      case None => return Err(AlreadyInFlight);
      case Some(entry) =>
        if entry.fingerprint != req.fingerprint {
          return Err(Conflict);
        }
        if entry.status == Done {
          return Ok(Reservation(true, entry.response));
        }
        return Err(AlreadyInFlight);
    }

    method Complete(key: Key, response: Option<string>, now: int, fetch: Fault, write: Fault)
      returns (r: Result<(), Error>)
      modifies this
      ensures (keyspace, r) == CompletingCall(Redis, old(keyspace), key, response, now, fetch, write)
      ensures var found := key in old(keyspace) && old(keyspace)[key].status == InFlight
                           && now < old(keyspace)[key].expiresAt;
              && r == (if !fetch.Fine? then Err(Unavailable)
                       else if !found then Err(NotReserved)
                       else if !write.Fine? then Err(Unavailable)
                       else Ok(()))
              && keyspace == if fetch.Fine? && found && !write.Lost?
                             then old(keyspace)[key := old(keyspace)[key].(status := Done, response := response)]
                             else old(keyspace)
    {
      var held := Get(key, now, fetch);
      if held.Err? {
        return Err(held.error);
      }
      if held.value.None? || held.value.value.status != InFlight {
        return Err(NotReserved);
      }
      var kept := SetXX(key, held.value.value.fingerprint, response, now, write);
      if kept.None? {
        return Err(Unavailable);
      }
      if !kept.value {
        return Err(NotReserved);
      }
      return Ok(());
    }

    /** A completed key survives every uninterrupted release. */
    method Release(key: Key, now: int, fetch: Fault, write: Fault) returns (r: Result<(), Error>)
      modifies this
      ensures (keyspace, r) == ReleasingCall(Redis, old(keyspace), key, now, fetch, write)
      ensures var found := key in old(keyspace) && old(keyspace)[key].status == InFlight
                           && now < old(keyspace)[key].expiresAt;
              && r == (if fetch.Fine? && (!found || write.Fine?) then Ok(()) else Err(Unavailable))
              && keyspace == if fetch.Fine? && found && !write.Lost? then old(keyspace) - {key} else old(keyspace)
    {
      var held := Get(key, now, fetch);
      if held.Err? {
        return Err(held.error);
      }
      if held.value.None? || held.value.value.status != InFlight {
        return Ok(());
      }
      if write.Lost? {
        return Err(Unavailable);
      }
      keyspace := keyspace - {key};
      return if write.Fine? then Ok(()) else Err(Unavailable);
    }
  }

  // ---- The port ----

  /** How each command of one guarded consumption goes. */
  datatype Faults = Faults(ask: Fault, read: Fault, fetch: Fault, write: Fault) {
    /** Memory fails only by refusing a cancelled reservation. */
    predicate Possible(driver: Driver) {
      driver.Memory? ==> write.Fine? && !ask.Unheard?
    }
  }

  /** The store behind the guard, whichever driver was wired in. */
  datatype Port = OnMemory(memory: MemoryStore) | OnPostgres(postgres: PostgresStore) | OnRedis(redis: RedisStore) {
    ghost function Footprint(): set<object> {
      match this
      case OnMemory(store) => {store}
      case OnPostgres(store) => {store}
      case OnRedis(store) => {store}
    }

    function Which(): Driver {
      match this
      case OnMemory(_) => Memory
      case OnPostgres(_) => Postgres
      case OnRedis(_) => Redis
    }

    function Ttl(): int {
      match this
      case OnMemory(store) => store.ttl
      case OnPostgres(store) => store.ttl
      case OnRedis(store) => store.ttl
    }

    ghost function Content(): Rows
      reads Footprint()
    {
      match this
      case OnMemory(store) => store.entries
      case OnPostgres(store) => store.table
      case OnRedis(store) => store.keyspace
    }

    method Reserve(req: Request, now: int, faults: Faults) returns (r: Result<Reservation, Error>)
      requires faults.Possible(Which())
      modifies Footprint()
      ensures (Content(), r) == Reserving(Which(), old(Content()), req, now, Ttl(), faults.ask, faults.read)
    {
      match this
      case OnMemory(store) => r := store.Reserve(faults.ask.Lost?, req, now);
      case OnPostgres(store) => r := store.Reserve(req, now, faults.ask, faults.read);
      case OnRedis(store) => r := store.Reserve(req, now, faults.ask, faults.read);
    }

    method Complete(key: Key, response: Option<string>, now: int, faults: Faults) returns (r: Result<(), Error>)
      requires faults.Possible(Which())
      modifies Footprint()
      ensures (Content(), r) == CompletingCall(Which(), old(Content()), key, response, now, faults.fetch, faults.write)
    {
      match this
      case OnMemory(store) => r := store.Complete(key, response, now);
      case OnPostgres(store) => r := store.Complete(key, response, now, faults.write);
      case OnRedis(store) => r := store.Complete(key, response, now, faults.fetch, faults.write);
    }

    method Release(key: Key, now: int, faults: Faults) returns (r: Result<(), Error>)
      requires faults.Possible(Which())
      modifies Footprint()
      ensures (Content(), r) == ReleasingCall(Which(), old(Content()), key, now, faults.fetch, faults.write)
    {
      match this
      case OnMemory(store) =>
        store.Release(key);
        r := Ok(());
      case OnPostgres(store) => r := store.Release(key, now, faults.write);
      case OnRedis(store) => r := store.Release(key, now, faults.fetch, faults.write);
    }
  }
}
