/** The bounded pool the protocol implements: what a reader of the documentation would call
    the pool.  Each of its steps is atomic. */
module BoundedPool {

  /** Idle sessions, sessions in use (handed out, or on their way in or out), and slots taken
      by no session yet. */
  datatype Pool = Pool(idle: multiset<nat>, busy: multiset<nat>, reserved: nat)
  {
    function Size(): nat { |idle| + |busy| + reserved }
  }

  datatype Event =
    | TakeIdle(x: nat)   // an idle session is handed out
    | Reserve            // a slot is taken for a session about to be opened
    | Fill(x: nat)       // the session opened in a reserved slot
    | FreeSlot           // a reserved slot is given up
    | GiveBack(x: nat)   // a session becomes idle again
    | Evict(x: nat)      // a dead session is dropped and leaves its slot behind

  ghost predicate Next(p: Pool, e: Event, q: Pool, maxPoolSize: nat) {
    match e
    case TakeIdle(x) => x in p.idle && q == p.(idle := p.idle - multiset{x}, busy := p.busy + multiset{x})
    case Reserve => p.Size() < maxPoolSize && q == p.(reserved := p.reserved + 1)
    case Fill(x) => p.reserved > 0 && q == p.(reserved := p.reserved - 1, busy := p.busy + multiset{x})
    case FreeSlot => p.reserved > 0 && q == p.(reserved := p.reserved - 1)
    case GiveBack(x) => x in p.busy && q == p.(busy := p.busy - multiset{x}, idle := p.idle + multiset{x})
    case Evict(x) => x in p.busy && q == p.(busy := p.busy - multiset{x}, reserved := p.reserved + 1)
  }

  ghost predicate NextOrStutter(p: Pool, q: Pool, maxPoolSize: nat) {
    p == q || exists e: Event :: Next(p, e, q, maxPoolSize)
  }

  lemma EventBounded(p: Pool, e: Event, q: Pool, maxPoolSize: nat)
    requires p.Size() <= maxPoolSize && Next(p, e, q, maxPoolSize)
    ensures q.Size() <= maxPoolSize
  {
  }

  /** The pool is bounded. */
  lemma NextBounded(p: Pool, q: Pool, maxPoolSize: nat)
    requires p.Size() <= maxPoolSize && NextOrStutter(p, q, maxPoolSize)
    ensures q.Size() <= maxPoolSize
  {
    if p != q {
      var e: Event :| Next(p, e, q, maxPoolSize);
      EventBounded(p, e, q, maxPoolSize);
    }
  }
}

/** What `Count` counts, and what the protocol refines. */
module PoolCapacity {
  import opened Options
  import opened Counting
  import opened PoolModel
  import opened PoolOwnership
  import PoolWakeup

  /** Whether a thread holds a session of pool state `s`. */
  predicate HeldAt(f: Frame, s: StateId) {
    Holds(f.pc) && !f.pc.ReturnDispose? && f.state == s
  }

  /** Whether a thread keeps a slot of pool state `s` that no session takes. */
  predicate ReservedAt(f: Frame, s: StateId) {
    (f.pc.Opening? || f.pc.EvictDecrement? || f.pc.FailDecrement?) && f.state == s
  }

  function RentedFrom(g: Shared, s: StateId): set<SessionId> {
    set x | x in g.rented && g.rented[x] == s
  }

  /** How much of pool state `s` one frame and the shared state take up. */
  function Load(g: Shared, f: Frame, s: StateId): nat
    requires s < |g.states|
  {
    |g.states[s].bag| + One(HeldAt(f, s)) + One(ReservedAt(f, s)) + |RentedFrom(g, s)|
  }

  /** `Count` as the ledger explains it. */
  function Booked(p: PoolState): int { p.count - p.departed + p.foreign }

  /** What a step may do to the ledger of `s`: a session departs only from a retired pool state,
      and a foreign one arrives only at the live one. */
  ghost predicate Ledgered(g: Shared, f: Frame, g': Shared, s: StateId)
    requires s < |g.states|
  {
    && s < |g'.states|
    && (g'.states[s].departed == g.states[s].departed
        || (f.state == s && (f.pc.DrainDispose? || g.active != Some(s))))
    && (g'.states[s].foreign == g.states[s].foreign || (f.pc.Lookup? && g.active != Some(f.state)))
  }

  /** A step changes the ledger of `s` by as much as what the frame and the shared state take up. */
  ghost predicate BooksBalance(g: Shared, f: Frame, g': Shared, f': Frame, s: StateId)
    requires s < |g.states|
  {
    Ledgered(g, f, g', s) && Booked(g'.states[s]) - Load(g', f', s) == Booked(g.states[s]) - Load(g, f, s)
  }

  lemma RentedSame(g: Shared, g': Shared, s: StateId)
    requires g'.rented == g.rented
    ensures RentedFrom(g', s) == RentedFrom(g, s)
  {
  }

  /** One more session handed out, from pool state `home`. */
  lemma RentedOneMore(g: Shared, g': Shared, x: SessionId, home: StateId, s: StateId)
    requires x !in g.rented && g'.rented == g.rented[x := home]
    ensures |RentedFrom(g', s)| == |RentedFrom(g, s)| + One(home == s)
  {
    assert RentedFrom(g', s) == RentedFrom(g, s) + if home == s then {x} else {};
  }

  lemma IdleBooks(g: Shared, f: Frame, ch: Choice, g': Shared, f': Frame, s: StateId)
    requires At(g, f, Between) && s < |g.states|
    requires ActIdle(g, f, ch) == Moved(g', f')
    ensures BooksBalance(g, f, g', f', s)
  {
    if ch.CallReturn? {
      assert g.rented == g'.rented[ch.x := f'.state];
      RentedOneMore(g', g, ch.x, f'.state, s);
    } else {
      RentedSame(g, g', s);
    }
  }

  lemma EnterBooks(g: Shared, f: Frame, ch: Choice, g': Shared, f': Frame, s: StateId)
    requires At(g, f, Entering) && s < |g.states|
    requires ActEnter(g, f, ch) == Moved(g', f')
    ensures BooksBalance(g, f, g', f', s)
  {
    RentedSame(g, g', s);
  }

  lemma TryBooks(g: Shared, f: Frame, ch: Choice, g': Shared, f': Frame, s: StateId)
    requires At(g, f, Trying) && s < |g.states|
    requires ActTry(g, f, ch) == Moved(g', f')
    ensures BooksBalance(g, f, g', f', s)
  {
    RentedSame(g, g', s);
    if ch.Pick? && ch.x in g.states[f.state].bag { PoolWakeup.TakeOne(g.states[f.state].bag, ch.x); }
  }

  lemma ValidateBooks(g: Shared, f: Frame, ch: Choice, g': Shared, f': Frame, s: StateId)
    requires At(g, f, Validating) && s < |g.states|
    requires ActValidate(g, f, ch) == Moved(g', f')
    ensures BooksBalance(g, f, g', f', s)
  {
    RentedSame(g, g', s);
  }

  lemma ReserveBooks(g: Shared, f: Frame, ch: Choice, g': Shared, f': Frame, s: StateId)
    requires At(g, f, Reserving) && s < |g.states|
    requires ActReserve(g, f, ch) == Moved(g', f')
    ensures BooksBalance(g, f, g', f', s)
  {
    RentedSame(g, g', s);
  }

  lemma OpenBooks(g: Shared, f: Frame, ch: Choice, g': Shared, f': Frame, s: StateId)
    requires At(g, f, OpeningUp) && s < |g.states|
    requires ActOpen(g, f, ch) == Moved(g', f')
    ensures BooksBalance(g, f, g', f', s)
  {
    RentedSame(g, g', s);
  }

  lemma RegisterBooks(g: Shared, f: Frame, ch: Choice, g': Shared, f': Frame, s: StateId)
    requires At(g, f, Registering) && s < |g.states|
    requires ActRegister(g, f, ch) == Moved(g', f')
    ensures BooksBalance(g, f, g', f', s)
  {
    RentedSame(g, g', s);
  }

  lemma WakeBooks(g: Shared, f: Frame, ch: Choice, g': Shared, f': Frame, s: StateId)
    requires At(g, f, Waking) && s < |g.states|
    requires ActWake(g, f, ch) == Moved(g', f')
    ensures BooksBalance(g, f, g', f', s)
  {
    RentedSame(g, g', s);
  }

  lemma LeaveBooks(g: Shared, f: Frame, ch: Choice, g': Shared, f': Frame, s: StateId)
    requires At(g, f, Leaving) && s < |g.states|
    requires f.pc.Deliver? ==> f.session !in g.rented
    requires ActLeave(g, f, ch) == Moved(g', f')
    ensures BooksBalance(g, f, g', f', s)
  {
    if f.pc.Deliver? && f.pending == [] {
      RentedOneMore(g, g', f.session, f.state, s);
    } else {
      RentedSame(g, g', s);
    }
  }

  lemma LookupBooks(g: Shared, f: Frame, ch: Choice, g': Shared, f': Frame, s: StateId)
    requires At(g, f, LookingUp) && s < |g.states|
    requires ActLookup(g, f, ch) == Moved(g', f')
    ensures BooksBalance(g, f, g', f', s)
  {
    RentedSame(g, g', s);
  }

  lemma ReturnBooks(g: Shared, f: Frame, ch: Choice, g': Shared, f': Frame, s: StateId)
    requires At(g, f, Returning) && s < |g.states|
    requires ActReturn(g, f, ch) == Moved(g', f')
    ensures BooksBalance(g, f, g', f', s)
  {
    RentedSame(g, g', s);
  }

  lemma DrainBooks(g: Shared, f: Frame, ch: Choice, g': Shared, f': Frame, s: StateId)
    requires At(g, f, Draining) && s < |g.states|
    requires ActDrain(g, f, ch) == Moved(g', f')
    ensures BooksBalance(g, f, g', f', s)
  {
    RentedSame(g, g', s);
    if ch.Pick? && ch.x in g.states[f.state].bag { PoolWakeup.TakeOne(g.states[f.state].bag, ch.x); }
  }

  lemma DismissBooks(g: Shared, f: Frame, ch: Choice, g': Shared, f': Frame, s: StateId)
    requires At(g, f, Dismissing) && s < |g.states|
    requires ActDismiss(g, f, ch) == Moved(g', f')
    ensures BooksBalance(g, f, g', f', s)
  {
    RentedSame(g, g', s);
  }

  lemma ActBooks(g: Shared, f: Frame, ch: Choice, g': Shared, f': Frame, s: StateId)
    requires FrameInRange(f, |g.states|) && s < |g.states| && Act(g, f, ch) == Moved(g', f')
    requires f.pc.Deliver? ==> f.session !in g.rented
    ensures BooksBalance(g, f, g', f', s)
  {
    match PhaseOf(f.pc) {
      case Between => IdleBooks(g, f, ch, g', f', s);
      case Entering => EnterBooks(g, f, ch, g', f', s);
      case Trying => TryBooks(g, f, ch, g', f', s);
      case Validating => ValidateBooks(g, f, ch, g', f', s);
      case Reserving => ReserveBooks(g, f, ch, g', f', s);
      case OpeningUp => OpenBooks(g, f, ch, g', f', s);
      case Registering => RegisterBooks(g, f, ch, g', f', s);
      case Waking => WakeBooks(g, f, ch, g', f', s);
      case Leaving => LeaveBooks(g, f, ch, g', f', s);
      case LookingUp => LookupBooks(g, f, ch, g', f', s);
      case Returning => ReturnBooks(g, f, ch, g', f', s);
      case Draining => DrainBooks(g, f, ch, g', f', s);
      case Dismissing => DismissBooks(g, f, ch, g', f', s);
    }
  }

  function Occupants(threads: seq<Frame>, s: StateId): (ns: seq<nat>)
    ensures |ns| == |threads|
    ensures forall k :: 0 <= k < |ns| ==> ns[k] == One(HeldAt(threads[k], s)) + One(ReservedAt(threads[k], s))
  {
    seq(|threads|, k requires 0 <= k < |threads| => One(HeldAt(threads[k], s)) + One(ReservedAt(threads[k], s)))
  }

  /** Idle, in a thread, reserved, or handed out: everything that takes up room in pool state `s`. */
  function Occupancy(c: Config, s: StateId): nat
    requires s < |c.shared.states|
  {
    |c.shared.states[s].bag| + Sum(Occupants(c.threads, s)) + |RentedFrom(c.shared, s)|
  }

  ghost predicate BookedExactly(c: Config, s: StateId)
    requires s < |c.shared.states|
  {
    && Booked(c.shared.states[s]) == Occupancy(c, s)
    && (c.shared.active == Some(s) ==> c.shared.states[s].departed == 0)
  }

  ghost predicate PoolInv(c: Config) {
    && PoolWakeup.WaitInv(c)
    && Owned(c)
    && forall s: StateId :: s < |c.shared.states| ==> BookedExactly(c, s)
  }

  /** On a live pool state no `Clear` is at work. */
  lemma NotDrainingLive(c: Config, i: nat)
    requires PoolWakeup.WaitInv(c) && i < |c.threads| && c.shared.active == Some(c.threads[i].state)
    ensures !c.threads[i].pc.Drain? && !c.threads[i].pc.DrainDispose?
  {
    var s := c.threads[i].state;
    assert PoolWakeup.Inv(c.shared, s, PoolWakeup.Crowd(s, c.threads), PoolWakeup.NOBODY);
    PoolWakeup.HeadsAtLeast(PoolWakeup.Clearers, s, c.threads, i);
  }

  lemma DeliversUnrented(c: Config, i: nat)
    requires Owned(c) && i < |c.threads| && Holds(c.threads[i].pc)
    ensures c.threads[i].session !in c.shared.rented
  {
    var x := c.threads[i].session;
    assert Places(c, x) == One(x < c.shared.next);
    SumUpdate(InFrames(c.threads, x), i, 0);
  }

  /** Only the frame that moves and the shared state change the occupancy. */
  lemma OccupancyMoves(c: Config, i: nat, g': Shared, f': Frame, s: StateId)
    requires i < |c.threads| && s < |c.shared.states| && s < |g'.states|
    ensures Occupancy(Config(g', c.threads[i := f']), s) - Load(g', f', s)
              == Occupancy(c, s) - Load(c.shared, c.threads[i], s)
  {
    var ns := Occupants(c.threads, s);
    var n := One(HeldAt(f', s)) + One(ReservedAt(f', s));
    SumUpdate(ns, i, n);
    assert Occupants(c.threads[i := f'], s) == ns[i := n];
  }

  /** Nothing departs from a live pool state. */
  lemma LiveKeepsAll(c: Config, i: nat, g': Shared, f': Frame, s: StateId)
    requires PoolInv(c) && i < |c.threads| && s < |c.shared.states| && g'.active == Some(s)
    requires Regular(c.shared, c.threads[i], Moved(g', f')) && Ledgered(c.shared, c.threads[i], g', s)
    ensures g'.states[s].departed == 0
  {
    assert c.shared.active == Some(s) && BookedExactly(c, s);
    if c.threads[i].state == s { NotDrainingLive(c, i); }
  }

  lemma StepBooks(c: Config, i: nat, ch: Choice, c': Config, s: StateId)
    requires PoolInv(c) && Step(c, i, ch) == Some(c') && s < |c.shared.states|
    ensures s < |c'.shared.states| && BookedExactly(c', s)
  {
    var f, f' := c.threads[i], c'.threads[i];
    if Holds(f.pc) { DeliversUnrented(c, i); }
    ActBooks(c.shared, f, ch, c'.shared, f', s);
    OccupancyMoves(c, i, c'.shared, f', s);
    assert BookedExactly(c, s);
    if c'.shared.active == Some(s) { LiveKeepsAll(c, i, c'.shared, f', s); }
  }

  lemma StepAddsEmpty(c: Config, i: nat, ch: Choice, c': Config)
    requires PoolWakeup.InRange(c) && Step(c, i, ch) == Some(c') && |c'.shared.states| > |c.shared.states|
    ensures |c'.shared.states| == |c.shared.states| + 1 && BookedExactly(c', |c.shared.states|)
  {
    var s := |c.shared.states|;
    var f' := c'.threads[i];
    assert Regular(c.shared, c.threads[i], Moved(c'.shared, f'));
    EmptyOccupancy(c, i, c', s);
  }

  lemma EmptyOccupancy(c: Config, i: nat, c': Config, s: StateId)
    requires PoolWakeup.InRange(c) && s == |c.shared.states| < |c'.shared.states|
    requires i < |c.threads| == |c'.threads| && c'.threads == c.threads[i := c'.threads[i]] && c'.threads[i].pc.FastTake?
    requires c'.shared.states[s] == EMPTY_POOL && c'.shared.rented == c.shared.rented
    ensures Occupancy(c', s) == 0
  {
    SumZero(Occupants(c'.threads, s));
    assert RentedFrom(c'.shared, s) == {};
  }

  lemma StepKeepsBooks(c: Config, i: nat, ch: Choice, c': Config, s: StateId)
    requires PoolInv(c) && Step(c, i, ch) == Some(c') && s < |c'.shared.states|
    ensures BookedExactly(c', s)
  {
    if s < |c.shared.states| {
      StepBooks(c, i, ch, c', s);
    } else {
      StepAddsEmpty(c, i, ch, c');
    }
  }

  lemma StepKeepsPool(c: Config, i: nat, ch: Choice, c': Config)
    requires PoolInv(c) && Step(c, i, ch) == Some(c')
    ensures PoolInv(c')
  {
    PoolWakeup.StepKeepsInv(c, i, ch, c');
    StepMoves(c, i, ch, c');
    forall s: StateId | s < |c'.shared.states| ensures BookedExactly(c', s) {
      StepKeepsBooks(c, i, ch, c', s);
    }
  }

  lemma {:induction false} RunKeepsPool(c: Config, schedule: seq<Move>, c': Config)
    requires PoolInv(c) && Run(c, schedule) == Some(c')
    ensures PoolInv(c')
  {
    if schedule != [] {
      var last := |schedule| - 1;
      var r := Run(c, schedule[..last]);
      RunKeepsPool(c, schedule[..last], r.value);
      StepKeepsPool(r.value, schedule[last].thread, schedule[last].choice, c');
    }
  }

  lemma ReachablePool(c: Config)
    requires Reachable(c)
    ensures PoolInv(c)
  {
    var threads: nat, maxPoolSize: nat, schedule: seq<Move> :|
      maxPoolSize >= 1 && Run(Init(threads, maxPoolSize), schedule) == Some(c);
    PoolWakeup.InitInv(threads, maxPoolSize);
    InitOwned(threads, maxPoolSize);
    RunKeepsPool(Init(threads, maxPoolSize), schedule, c);
  }

  // ---- what `Count` means ----

  /** Conservation, for every pool state in every reachable state: `Count` is what the pool state
      still holds, plus what left it unnoticed, less what it was given without having counted it. */
  lemma Conservation(c: Config, s: StateId)
    requires Reachable(c) && s < |c.shared.states|
    ensures c.shared.states[s].count
              == Occupancy(c, s) + c.shared.states[s].departed - c.shared.states[s].foreign
  {
    ReachablePool(c);
    assert BookedExactly(c, s);
  }

  /** On the live pool state `Count` is exact if and only if no session of an earlier, cleared pool
      state was ever given back to it; only then is the maximum a maximum. */
  lemma CountExact(c: Config, s: StateId)
    requires Reachable(c) && c.shared.active == Some(s)
    ensures s < |c.shared.states|
    ensures c.shared.states[s].count == Occupancy(c, s) <==> c.shared.states[s].foreign == 0
    ensures Occupancy(c, s) <= c.shared.maxPoolSize + c.shared.states[s].foreign
    ensures c.shared.states[s].foreign == 0 ==> 0 <= c.shared.states[s].count <= c.shared.maxPoolSize
  {
    ReachablePool(c);
    assert BookedExactly(c, s);
    PoolWakeup.ReachableStateInv(c, s);
  }

  /** Together with `NoLostWakeup`: a thread that waits with no permit left and nobody on the way
      waits while exactly `maxPoolSize` sessions and slots of its pool are in use. */
  lemma WaitsOnlyWhenAllInUse(c: Config, s: StateId, i: nat)
    requires Reachable(c) && c.shared.active == Some(s)
    requires i < |c.threads| && c.threads[i].pc.Blocked? && c.threads[i].state == s && Step(c, i, Go).None?
    requires forall k :: 0 <= k < |c.threads| ==>
               !(PoolWakeup.OnItsWay(c.threads[k].pc) && c.threads[k].state == s)
    requires s < |c.shared.states| && c.shared.states[s].foreign == 0
    ensures |RentedFrom(c.shared, s)| + Sum(Occupants(c.threads, s)) == c.shared.maxPoolSize
  {
    PoolWakeup.NoLostWakeup(c, s, i);
    CountExact(c, s);
  }
}
