/** A run of a single thread in which the maximum of the pool is exceeded. */
module PoolRuns {
  import opened Options
  import opened PoolModel
  import opened PoolCapacity

  lemma ReachableStep(c: Config, i: nat, ch: Choice, c': Config)
    requires Reachable(c) && Step(c, i, ch) == Some(c')
    ensures Reachable(c')
  {
    var threads: nat, maxPoolSize: nat, schedule: seq<Move> :|
      maxPoolSize >= 1 && Run(Init(threads, maxPoolSize), schedule) == Some(c);
    var longer := schedule + [Move(i, ch)];
    assert longer[..|schedule|] == schedule;
    assert Run(Init(threads, maxPoolSize), longer) == Some(c');
  }

  // ---- a session that outlives a `Clear` ----

  /** `r` holds on after every step, as reachability does. */
  ghost predicate Closed(r: Config -> bool) {
    forall c: Config, i: nat, ch: Choice, c': Config :: r(c) && Step(c, i, ch) == Some(c') ==> r(c')
  }

  predicate AtRest(c: Config) {
    |c.threads| == 1 && c.threads[0].pc.Idle? && c.threads[0].pending == []
  }

  /** The only thread steps, and its step is known. */
  lemma Advance(r: Config -> bool, c: Config, ch: Choice, g: Shared, f: Frame) returns (c': Config)
    requires Closed(r) && r(c) && |c.threads| == 1 && FrameInRange(c.threads[0], |c.shared.states|)
    requires Act(c.shared, c.threads[0], ch) == Moved(g, f)
    ensures r(c') && c' == Config(g, [f])
  {
    c' := Config(g, c.threads[0 := f]);
    assert c.threads[0 := f] == [f];
    assert Step(c, 0, ch) == Some(c');
  }

  /** `Rent` enters a new pool state and finds its bag empty. */
  lemma EnterNew(r: Config -> bool, c: Config) returns (c': Config)
    requires Closed(r) && r(c) && AtRest(c) && c.shared.active == None
    ensures r(c') && |c'.threads| == 1
    ensures c'.shared == c.shared.(states := c.shared.states + [EMPTY_POOL], active := Some(|c.shared.states|))
    ensures c'.threads[0] == c.threads[0].(pc := ReadCount, isAsync := false, state := |c.shared.states|)
  {
    var f := c.threads[0].(isAsync := false);
    var s := |c.shared.states|;
    var g := c.shared.(states := c.shared.states + [EMPTY_POOL], active := Some(s));
    c' := Advance(r, c, CallRent(false), c.shared, f.(pc := GetOrAdd));
    c' := Advance(r, c', Go, g, f.(pc := FastTake, state := s));
    c' := Advance(r, c', Go, g, f.(pc := ReadCount, state := s));
  }

  /** It reserves the first slot. */
  lemma ReserveFirst(r: Config -> bool, c: Config, s: StateId) returns (c': Config)
    requires Closed(r) && r(c) && |c.threads| == 1 && c.threads[0].pc.ReadCount? && c.threads[0].state == s
    requires c.threads[0].pending == [] && s < |c.shared.states| && c.shared.states[s] == EMPTY_POOL
    requires c.shared.maxPoolSize >= 1
    ensures r(c') && c' == Config(AddCount(c.shared, s, 1), [c.threads[0].(pc := Opening, number := 0)])
  {
    var f := c.threads[0].(number := 0);
    c' := Advance(r, c, Go, c.shared, f.(pc := CompareExchange));
    c' := Advance(r, c', Go, AddCount(c.shared, s, 1), f.(pc := Opening));
  }

  /** It opens a session there and hands it out. */
  lemma OpenAndDeliver(r: Config -> bool, c: Config, s: StateId) returns (c': Config)
    requires Closed(r) && r(c) && |c.threads| == 1 && c.threads[0].pc.Opening? && c.threads[0].state == s
    requires c.threads[0].pending == [] && s < |c.shared.states|
    ensures r(c') && AtRest(c')
    ensures c'.shared == c.shared.(next := c.shared.next + 1, rented := c.shared.rented[c.shared.next := s])
  {
    var g, f := c.shared.(next := c.shared.next + 1), c.threads[0].(session := c.shared.next);
    c' := Advance(r, c, Answer(true), g, f.(pc := Deliver));
    c' := Advance(r, c', Go, g.(rented := g.rented[c.shared.next := s]), f.(pc := Idle));
  }

  /** Renting when there is no pool: a new pool state, and in it one session, handed out. */
  lemma RentFirst(r: Config -> bool, c: Config) returns (c': Config)
    requires Closed(r) && r(c) && AtRest(c) && c.shared.active == None && c.shared.maxPoolSize >= 1
    ensures r(c') && AtRest(c')
    ensures
      var g := c.shared;
      c'.shared == g.(states := g.states + [EMPTY_POOL.(count := 1)], active := Some(|g.states|),
                      rented := g.rented[g.next := |g.states|], next := g.next + 1)
  {
    var g, s := c.shared, |c.shared.states|;
    c' := EnterNew(r, c);
    c' := ReserveFirst(r, c', s);
    c' := OpenAndDeliver(r, c', s);
    assert (g.states + [EMPTY_POOL])[s := EMPTY_POOL.(count := 1)] == g.states + [EMPTY_POOL.(count := 1)];
  }

  lemma RetireIdle(r: Config -> bool, c: Config, s: StateId) returns (c': Config)
    requires Closed(r) && r(c) && AtRest(c) && c.shared.active == Some(s) && s < |c.shared.states|
    ensures r(c') && c' == Config(c.shared.(active := None), [c.threads[0].(pc := Drain, state := s)])
  {
    c' := Advance(r, c, CallClear, c.shared, c.threads[0].(pc := Remove));
    c' := Advance(r, c', Go, c.shared.(active := None), c.threads[0].(pc := Drain, state := s));
  }

  /** Clearing a pool whose bag is empty and on which nobody waits. */
  lemma ClearIdle(r: Config -> bool, c: Config, s: StateId) returns (c': Config)
    requires Closed(r) && r(c) && AtRest(c) && c.shared.active == Some(s) && s < |c.shared.states|
    requires c.shared.states[s].bag == multiset{} && c.shared.states[s].waiters == 0
    ensures r(c') && AtRest(c') && c'.shared == c.shared.(active := None)
  {
    c' := RetireIdle(r, c, s);
    var g, f := c'.shared, c'.threads[0];
    c' := Advance(r, c', Go, g, f.(pc := ReadWaiters));
    c' := Advance(r, c', Go, g, f.(pc := Idle, number := 0));
  }

  /** What `Return` writes down when the session of `home` goes to `s` instead. */
  function Diverted(g: Shared, home: StateId, s: StateId): Shared
    requires home < |g.states| && s < |g.states|
  {
    var left := Update(g, home, g.states[home].(departed := g.states[home].departed + 1));
    Update(left, s, left.states[s].(foreign := left.states[s].foreign + 1))
  }

  lemma LookupForeign(r: Config -> bool, c: Config, x: SessionId, home: StateId, s: StateId) returns (c': Config)
    requires Closed(r) && r(c) && AtRest(c) && c.shared.active == Some(s) && s < |c.shared.states|
      && home < |c.shared.states|
    requires x in c.shared.rented && c.shared.rented[x] == home != s
    ensures r(c')
    ensures c' == Config(Diverted(c.shared.(rented := c.shared.rented - {x}), home, s),
                         [c.threads[0].(pc := Add, session := x, state := s)])
  {
    var f := c.threads[0].(session := x);
    var g := c.shared.(rented := c.shared.rented - {x});
    c' := Advance(r, c, CallReturn(x), g, f.(pc := Lookup, state := home));
    c' := Advance(r, c', Go, Diverted(g, home, s), f.(pc := Add, state := s));
  }

  /** Giving a session of pool state `home` back to another one, `s`. */
  lemma ReturnForeign(r: Config -> bool, c: Config, x: SessionId, home: StateId, s: StateId) returns (c': Config)
    requires Closed(r) && r(c) && AtRest(c) && c.shared.active == Some(s) && s < |c.shared.states|
      && home < |c.shared.states|
    requires x in c.shared.rented && c.shared.rented[x] == home != s
    ensures r(c') && |c'.shared.states| == |c.shared.states| && c'.shared.active == Some(s)
    ensures c'.shared.rented == c.shared.rented - {x} && c'.shared.maxPoolSize == c.shared.maxPoolSize
    ensures c'.shared.states[s].bag == c.shared.states[s].bag + multiset{x}
  {
    c' := LookupForeign(r, c, x, home, s);
    var g, f := c'.shared, c'.threads[0];
    var q := g.states[s];
    c' := Advance(r, c', Go, Update(g, s, q.(bag := q.bag + multiset{x})), f.(pc := Release));
  }

  lemma ReachableIsClosed(r: Config -> bool)
    requires forall c: Config :: r(c) <==> Reachable(c)
    ensures Closed(r)
  {
    forall c: Config, i: nat, ch: Choice, c': Config | r(c) && Step(c, i, ch) == Some(c') ensures r(c') {
      ReachableStep(c, i, ch, c');
    }
  }

  /** `maxPoolSize` is not a maximum once a pool has been cleared: with a maximum of one, a run of
      a single thread reaches a live pool with one session handed out and another one idle. */
  lemma OverfullAfterClear() returns (c: Config)
    ensures Reachable(c) && c.shared.maxPoolSize == 1
    ensures c.shared.active == Some(1) && |c.shared.states| == 2 && Occupancy(c, 1) > c.shared.maxPoolSize
  {
    c := Init(1, 1);
    assert Reachable(c) by { assert Run(Init(1, 1), []) == Some(c); }
    var r := (c: Config) => Reachable(c);
    ReachableIsClosed(r);
    c := RentFirst(r, c);
    c := ClearIdle(r, c, 0);
    c := RentFirst(r, c);
    c := ReturnForeign(r, c, 0, 0, 1);
    assert 1 in RentedFrom(c.shared, 1);
    assert 0 in c.shared.states[1].bag;
  }
}
