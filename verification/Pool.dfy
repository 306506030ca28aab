/** The pool of one connection string as an object, for calls that run one after the other; how the
    steps of concurrent calls interleave is the subject of PoolModel. */
module Pool {

  datatype Ending = Reused | Opened | Thrown | Blocked

  class SqliteSession {
    /** What `IsValid` finds out. */
    const alive: bool
    var disposed: bool

    constructor ()
      ensures alive && !disposed
    {
      alive, disposed := true, false;
    }

    method Dispose()
      modifies `disposed
      ensures disposed
    {
      disposed := true;
    }
  }

  class PoolState {
    var bag: multiset<SqliteSession>
    var count: int
    var permits: nat
    var waiters: nat

    constructor ()
      ensures bag == multiset{} && count == 0 && permits == 0 && waiters == 0
    {
      bag, count, permits, waiters := multiset{}, 0, 0, 0;
    }

    /** Every idle session has a permit that announces it, is in the bag once, and is not disposed. */
    ghost predicate Valid()
      reads this, bag
    {
      |bag| <= permits && forall x :: x in bag ==> bag[x] == 1 && !x.disposed
    }

    /** `ConcurrentBag.TryTake`: any element; null exactly if there is none. */
    method TryTake() returns (x: SqliteSession?)
      modifies `bag
      ensures (x == null) == (old(bag) == multiset{})
      ensures if x == null then bag == old(bag) else x in old(bag) && bag == old(bag) - multiset{x}
    {
      if |bag| == 0 { return null; }
      x :| x in bag;
      bag := bag - multiset{x};
    }

    /** Takes an idle session and validates it; a dead one is disposed and its slot freed. */
    method TakeLive() returns (session: SqliteSession?, ghost dead: multiset<SqliteSession>)
      requires forall x :: x in bag ==> bag[x] == 1 && !x.disposed
      modifies this, bag
      ensures permits == old(permits) && waiters == old(waiters) && count == old(count) - |dead|
      ensures session != null ==>
        session.alive && !session.disposed && old(bag) == bag + multiset{session} && dead == multiset{}
      ensures session == null ==> old(bag) == bag + dead && (dead == multiset{} ==> bag == multiset{})
      ensures |dead| <= 1
      ensures forall x :: x in dead ==> !x.alive && x.disposed
      ensures forall x :: x in old(bag) && x !in dead ==> !x.disposed
      ensures forall x :: x in bag ==> bag[x] == 1 && !x.disposed
    {
      dead := multiset{};
      session := TryTake();
      if session != null && !session.alive {
        session.Dispose();
        count := count - 1;
        dead := multiset{session};
        session := null;
      }
    }

    /** The wait of a registered waiter: it blocks where there is no permit. */
    method Wait() returns (blocked: bool)
      modifies `waiters, `permits
      ensures blocked == (old(permits) == 0)
      ensures permits == (if blocked then 0 else old(permits) - 1) && waiters == old(waiters) + if blocked then 1 else 0
    {
      waiters := waiters + 1;
      if permits == 0 { return true; }
      permits := permits - 1;
      waiters := waiters - 1;
      return false;
    }

    /** Reserves a slot and opens a session in it; where that fails the slot is given up, and a
        permit announces it. */
    method Open(ok: bool) returns (session: SqliteSession?)
      modifies `count, `permits
      ensures ok ==> fresh(session) && session != null && session.alive && !session.disposed
      ensures ok ==> count == old(count) + 1 && permits == old(permits)
      ensures !ok ==> session == null && count == old(count) && permits == old(permits) + 1
    {
      count := count + 1;
      if ok { return new SqliteSession(); }
      count := count - 1;
      permits := permits + 1;
      return null;
    }

    /** The turns of the loop of `Rent` that find the pool full: each waits for a signal and looks
        for an idle session, until there is room, a live session, or nothing to wait for. */
    method WaitWhileFull(maxPoolSize: nat)
      returns (session: SqliteSession?, blocked: bool, ghost evicted: multiset<SqliteSession>)
      requires Valid()
      modifies this, bag
      ensures Valid() && count == old(count) - |evicted| && forall x :: x in evicted ==> !x.alive && x.disposed
      ensures waiters == old(waiters) + if blocked then 1 else 0
      ensures session != null ==>
        !blocked && session.alive && !session.disposed && old(bag) == bag + evicted + multiset{session}
      ensures session == null ==> old(bag) == bag + evicted
      ensures blocked ==> permits == 0 && bag == multiset{} && count >= maxPoolSize
      ensures session == null && !blocked ==> count < maxPoolSize
    {
      evicted := multiset{};
      while count >= maxPoolSize
        invariant Valid() && waiters == old(waiters)
        invariant old(bag) == bag + evicted && count == old(count) - |evicted|
        invariant forall x :: x in evicted ==> !x.alive && x.disposed
        decreases permits
      {
        blocked := Wait();
        if blocked { return null, true, evicted; }
        ghost var dead;
        session, dead := TakeLive();
        if session != null { return session, false, evicted; }
        evicted := evicted + dead;
      }
      return null, false, evicted;
    }

    /** The rest of `Rent` after a first look into the bag that found no live session. */
    method WaitOrOpen(maxPoolSize: nat, openOk: bool)
      returns (session: SqliteSession?, ending: Ending, ghost evicted: multiset<SqliteSession>)
      requires Valid()
      modifies this, bag
      ensures Valid() && forall x :: x in evicted ==> !x.alive && x.disposed
      ensures waiters == old(waiters) + if ending.Blocked? then 1 else 0
      ensures ending.Reused? || ending.Opened? <==> session != null && session.alive && !session.disposed
      ensures ending.Opened? ==> openOk && fresh(session)
      ensures old(bag) == bag + evicted + if ending.Reused? then multiset{session} else multiset{}
      ensures count == old(count) - |evicted| + if ending.Opened? then 1 else 0
      ensures ending.Opened? ==> count <= maxPoolSize
      ensures ending.Thrown? ==> !openOk && count < maxPoolSize
      ensures ending.Blocked? ==> permits == 0 && bag == multiset{} && count >= maxPoolSize
      ensures old(count) < maxPoolSize ==>
        evicted == multiset{} && !ending.Reused? && permits == old(permits) + if ending.Thrown? then 1 else 0
    {
      if count >= maxPoolSize {
        var blocked;
        session, blocked, evicted := WaitWhileFull(maxPoolSize);
        if session != null { return session, Reused, evicted; }
        if blocked { return null, Blocked, evicted; }
      } else {
        evicted := multiset{};
      }
      session := Open(openOk);
      ending := if openOk then Opened else Thrown;
    }

    /** `Rent` on this pool state.  An idle session is looked for first; no other is opened while a
        live one lies in the bag, unless a dead one came up instead.  Dead sessions are thrown away, each
        of which frees a slot: the first one in any case, and more of them only if the pool is full even
        so.  `openOk` is whether opening succeeds.  It blocks exactly if there is neither a live session
        nor room for a new one, and then no permit is left. */
    method Rent(maxPoolSize: nat, openOk: bool)
      returns (session: SqliteSession?, ending: Ending, ghost evicted: multiset<SqliteSession>)
      requires Valid()
      modifies this, bag
      ensures Valid() && forall x :: x in evicted ==> !x.alive && x.disposed
      ensures waiters == old(waiters) + if ending.Blocked? then 1 else 0
      ensures ending.Reused? || ending.Opened? <==> session != null && session.alive && !session.disposed
      ensures ending.Opened? ==> openOk && fresh(session)
      ensures old(bag) == bag + evicted + if ending.Reused? then multiset{session} else multiset{}
      ensures count == old(count) - |evicted| + if ending.Opened? then 1 else 0
      ensures ending.Opened? ==> count <= maxPoolSize
      ensures ending.Thrown? ==> !openOk && count < maxPoolSize
      ensures ending.Blocked? ==> permits == 0 && bag == multiset{} && count >= maxPoolSize
      ensures ending.Reused? || old(bag) == multiset{} || evicted != multiset{}
      ensures old(bag) != multiset{} && (forall x :: x in old(bag) ==> x.alive) ==>
        ending.Reused? && evicted == multiset{} && permits == old(permits)
      ensures |evicted| > 1 || (ending.Reused? && |evicted| > 0) ==> old(count) - 1 >= maxPoolSize
      ensures old(count) < maxPoolSize ==> permits == old(permits) + if ending.Thrown? then 1 else 0
    {
      session, evicted := TakeLive();
      if session != null { return session, Reused, evicted; }
      ghost var more;
      session, ending, more := WaitOrOpen(maxPoolSize, openOk);
      evicted := evicted + more;
    }

    /** `Return`, when the pool has not been cleared. */
    method Return(session: SqliteSession)
      requires Valid() && !session.disposed && session !in bag
      modifies this
      ensures Valid() && bag == old(bag) + multiset{session} && permits == old(permits) + 1
      ensures count == old(count) && waiters == old(waiters)
    {
      bag := bag + multiset{session};
      permits := permits + 1;
    }

    /** The rest of `Clear`, once the pool state has been removed from the dictionary. */
    method Retire()
      requires Valid()
      modifies this, bag
      ensures bag == multiset{} && count == old(count) && waiters == old(waiters) && permits == old(permits) + waiters
      ensures forall x :: x in old(bag) ==> x.disposed
    {
      ghost var taken: multiset<SqliteSession> := multiset{};
      while true
        invariant bag + taken == old(bag) && count == old(count) && waiters == old(waiters) && permits == old(permits)
        invariant forall x :: x in taken ==> x.disposed
        decreases |bag|
      {
        var session := TryTake();
        if session == null { break; }
        session.Dispose();
        taken := taken + multiset{session};
      }
      if waiters > 0 { permits := permits + waiters; }
    }
  }

  class SqliteConnectionPool {
    /** The entry of the dictionary. */
    var active: PoolState?

    constructor ()
      ensures active == null
    {
      active := null;
    }

    ghost predicate Valid()
      reads this, active, if active == null then {} else set x | x in active.bag
    {
      active != null ==> active.Valid()
    }

    method GetOrAdd() returns (state: PoolState)
      requires Valid()
      modifies `active
      ensures Valid() && state == active && (old(active) != null ==> active == old(active))
      ensures old(active) == null ==>
        fresh(state) && state.bag == multiset{} && state.count == 0 && state.permits == 0 && state.waiters == 0
    {
      if active == null { active := new PoolState(); }
      state := active;
    }

    /** `Return`: without a pool state the session is disposed. */
    method Return(session: SqliteSession)
      requires Valid() && !session.disposed && (active != null ==> session !in active.bag)
      modifies active, session
      ensures Valid() && session.disposed == (active == null)
      ensures active != null ==>
        && active.bag == old(active.bag) + multiset{session} && active.count == old(active.count)
        && active.permits == old(active.permits) + 1
    {
      if active != null {
        active.Return(session);
      } else {
        session.Dispose();
      }
    }

    /** `Clear`: no pool state is left, and of the one that was every idle session is disposed and
        every waiter has a permit. */
    method Clear()
      requires Valid()
      modifies this, active, if active == null then {} else set x | x in active.bag
      ensures Valid() && active == null
      ensures old(active) != null ==>
        && old(active).bag == multiset{} && (forall x :: x in old(active.bag) ==> x.disposed)
        && old(active).permits == old(active.permits) + old(active.waiters)
    {
      if active == null { return; }
      var state := active;
      active := null;
      state.Retire();
    }
  }
}
