/** Two-slot custody of browser release bundles: what each stretch of code between two
    awaits does to the cache, as functions and as the methods of the cache object. */
module ReleaseCache {
  import opened Wrappers

  type BundleId = nat
  type User = string
  type Tag = Option<string>

  const CAPACITY := 2
  const TTL_SECONDS := 900

  datatype Entry = Entry(user: User, tag: Tag, expires: int, leases: nat, retiring: bool)

  datatype Cache = Cache(
    entries: map<BundleId, Entry>, initialized: bool, busy: bool, closed: bool, failed: bool)

  datatype CacheError = Busy | NotFound | PrepareFailed | CleanupFailed | Closed

  const NEW_CACHE := Cache(map[], false, false, false, false)

  function Unavailable(c: Cache): Option<CacheError> {
    if c.failed then Some(CleanupFailed) else if c.closed then Some(Closed) else None
  }

  /** An entry a caller may still be handed. */
  predicate Live(e: Entry, now: int) { !e.retiring && e.expires > now }

  predicate Serves(e: Entry, user: User, tag: Tag, now: int) {
    e.user == user && e.tag == tag && Live(e, now)
  }

  ghost predicate Served(c: Cache, user: User, tag: Tag, now: int) {
    exists id :: id in c.entries && Serves(c.entries[id], user, tag, now)
  }

  // ----- preparing -----

  datatype Start = Refused(error: CacheError) | Cached(id: BundleId) | Begun

  /** A prepare call up to its first await: it is refused, answered, or takes the busy flag. */
  ghost predicate PrepareStarts(c: Cache, user: User, tag: Tag, now: int, start: Start, c1: Cache) {
    if Unavailable(c).Some? then start == Refused(Unavailable(c).value) && c1 == c
    else if Served(c, user, tag, now) then
      start.Cached? && start.id in c.entries && Serves(c.entries[start.id], user, tag, now) && c1 == c
    else if c.busy then start == Refused(Busy) && c1 == c
    else start == Begun && c1 == c.(busy := true)
  }

  function Freed(c: Cache): Cache { c.(busy := false) }

  function Reconciled(c: Cache): Cache { c.(initialized := true) }

  function Failed(c: Cache): Cache { c.(failed := true) }

  /** After reaping, a prepare call needs a free slot. */
  predicate HasRoom(c: Cache) { |c.entries| < CAPACITY }

  function Stored(c: Cache, id: BundleId, user: User, tag: Tag, now: int): Cache {
    c.(entries := c.entries[id := Entry(user, tag, now + TTL_SECONDS, 0, false)], busy := false)
  }

  // ----- reaping -----

  predicate Reapable(c: Cache, e: Entry, now: int) {
    e.leases == 0 && (c.closed || e.expires <= now)
  }

  function Retired(c: Cache, id: BundleId): Cache {
    if id in c.entries then c.(entries := c.entries[id := c.entries[id].(retiring := true)]) else c
  }

  function Removed(c: Cache, id: BundleId): Cache { c.(entries := c.entries - {id}) }

  // ----- leasing -----

  predicate Leasable(c: Cache, user: User, id: BundleId, now: int) {
    id in c.entries && c.entries[id].user == user && Live(c.entries[id], now)
  }

  function LeaseError(c: Cache, user: User, id: BundleId, now: int): Option<CacheError> {
    if Unavailable(c).Some? then Unavailable(c)
    else if !Leasable(c, user, id, now) then Some(NotFound)
    else None
  }

  function Leased(c: Cache, id: BundleId): Cache
    requires id in c.entries
  {
    c.(entries := c.entries[id := c.entries[id].(leases := c.entries[id].leases + 1)])
  }

  function Returned(c: Cache, id: BundleId): Cache
    requires id in c.entries && c.entries[id].leases > 0
  {
    c.(entries := c.entries[id := c.entries[id].(leases := c.entries[id].leases - 1)])
  }

  // ----- the cache object -----

  class BrowserReleaseCache {
    var entries: map<BundleId, Entry>
    var initialized: bool
    var busy: bool
    var closed: bool
    var failed: bool

    ghost function State(): Cache
      reads this
    {
      Cache(entries, initialized, busy, closed, failed)
    }

    constructor ()
      ensures State() == NEW_CACHE
    {
      entries, initialized, busy, closed, failed := map[], false, false, false, false;
    }

    method CheckAvailable() returns (error: Option<CacheError>)
      ensures error == Unavailable(State())
    {
      error := None;
      if failed { return Some(CleanupFailed); }
      if closed { return Some(Closed); }
    }

    /** The scan for a bundle already prepared for this user and tag. */
    method FindServed(user: User, tag: Tag, now: int) returns (found: Option<BundleId>)
      ensures found.Some? <==> Served(State(), user, tag, now)
      ensures found.Some? ==> found.value in entries && Serves(entries[found.value], user, tag, now)
    {
      var left := entries.Keys;
      while left != {}
        invariant left <= entries.Keys
        invariant forall id :: id in entries && id !in left ==> !Serves(entries[id], user, tag, now)
        decreases |left|
      {
        var id :| id in left;
        if Serves(entries[id], user, tag, now) { return Some(id); }
        left := left - {id};
      }
      found := None;
    }

    method BeginPrepare(user: User, tag: Tag, now: int) returns (start: Start)
      modifies this
      ensures PrepareStarts(old(State()), user, tag, now, start, State())
    {
      var error := CheckAvailable();
      if error.Some? { return Refused(error.value); }
      var found := FindServed(user, tag, now);
      if found.Some? { return Cached(found.value); }
      if busy { return Refused(Busy); }
      busy := true;
      start := Begun;
    }

    method Release()
      modifies this
      ensures State() == Freed(old(State()))
    {
      busy := false;
    }

    method NoteReconciled()
      modifies this
      ensures State() == Reconciled(old(State()))
    {
      initialized := true;
    }

    method NoteFailure()
      modifies this
      ensures State() == Failed(old(State()))
    {
      failed := true;
    }

    method Store(id: BundleId, user: User, tag: Tag, now: int)
      modifies this
      ensures State() == Stored(old(State()), id, user, tag, now)
    {
      entries := entries[id := Entry(user, tag, now + TTL_SECONDS, 0, false)];
      busy := false;
    }

    /** The reaper's look at one entry of its snapshot; true when it must now be cleaned up. */
    method Inspect(id: BundleId, now: int) returns (reap: bool)
      requires id in entries
      modifies this
      ensures reap == Reapable(old(State()), old(State()).entries[id], now)
      ensures State() == if reap then Retired(old(State()), id) else old(State())
    {
      reap := entries[id].leases == 0 && (closed || entries[id].expires <= now);
      if reap {
        entries := entries[id := entries[id].(retiring := true)];
      }
    }

    method FinishCleanup(id: BundleId, worked: bool)
      modifies this
      ensures State() == if worked then Removed(old(State()), id) else Failed(old(State()))
    {
      if worked {
        entries := entries - {id};
      } else {
        failed := true;
      }
    }

    method EnterLease(user: User, id: BundleId, now: int) returns (error: Option<CacheError>)
      modifies this
      ensures error == LeaseError(old(State()), user, id, now)
      ensures State() == if error.None? then Leased(old(State()), id) else old(State())
    {
      error := CheckAvailable();
      if error.Some? { return; }
      if id !in entries || entries[id].retiring || entries[id].user != user || entries[id].expires <= now {
        return Some(NotFound);
      }
      entries := entries[id := entries[id].(leases := entries[id].leases + 1)];
    }

    /** The lease ends; the reaper is this caller's to run unless somebody is busy. */
    method LeaveLease(id: BundleId) returns (reaps: bool)
      requires id in entries && entries[id].leases > 0
      modifies this
      ensures reaps == !old(busy)
      ensures State() == Returned(old(State()), id).(busy := true)
    {
      entries := entries[id := entries[id].(leases := entries[id].leases - 1)];
      reaps := !busy;
      busy := true;
    }

    /** Closing is refused while busy; otherwise it takes the flag and reaps. */
    method BeginClose() returns (refused: bool)
      modifies this
      ensures refused == old(busy)
      ensures State() == if refused then old(State()) else old(State()).(closed := true, busy := true)
    {
      refused := busy;
      if !refused {
        closed, busy := true, true;
      }
    }
  }
}
