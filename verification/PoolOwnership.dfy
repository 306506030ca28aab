/** Who holds a session: one bag, one thread inside `Rent`, `Return` or `Clear`, one open
    connection, or nobody any more.  Every session is in exactly one of these places. */
module PoolOwnership {
  import opened Options
  import opened Counting
  import opened PoolModel

  function One(b: bool): nat { if b then 1 else 0 }

  /** The positions at which a thread holds the session in its local variable. */
  predicate Holds(pc: Pc) {
    pc.Validate? || pc.EvictDispose? || pc.Deliver? || pc.Lookup? || pc.Add? || pc.ReturnDispose? || pc.DrainDispose?
  }

  function InFrame(f: Frame, x: SessionId): nat { One(Holds(f.pc) && f.session == x) }

  function InBags(states: seq<PoolState>, x: SessionId): (ns: seq<nat>)
    ensures |ns| == |states| && forall k :: 0 <= k < |ns| ==> ns[k] == states[k].bag[x]
  {
    seq(|states|, k requires 0 <= k < |states| => states[k].bag[x])
  }

  function InFrames(threads: seq<Frame>, x: SessionId): (ns: seq<nat>)
    ensures |ns| == |threads| && forall k :: 0 <= k < |ns| ==> ns[k] == InFrame(threads[k], x)
  {
    seq(|threads|, k requires 0 <= k < |threads| => InFrame(threads[k], x))
  }

  /** The places of session `x` that are not threads. */
  function Elsewhere(g: Shared, x: SessionId): nat {
    Sum(InBags(g.states, x)) + One(x in g.rented) + One(x in g.disposed)
  }

  /** In how many places session `x` is. */
  function Places(c: Config, x: SessionId): nat {
    Elsewhere(c.shared, x) + Sum(InFrames(c.threads, x))
  }

  /** Every session created is in exactly one place, and nothing else is anywhere. */
  ghost predicate Owned(c: Config) {
    forall x: SessionId :: Places(c, x) == One(x < c.shared.next)
  }

  lemma SameBags(states: seq<PoolState>, states': seq<PoolState>, x: SessionId)
    requires |states| == |states'| && forall k :: 0 <= k < |states| ==> states'[k].bag[x] == states[k].bag[x]
    ensures InBags(states', x) == InBags(states, x)
  {
  }

  lemma BagUpdate(states: seq<PoolState>, s: StateId, p: PoolState, x: SessionId)
    requires s < |states|
    ensures states[s].bag[x] <= Sum(InBags(states, x))
    ensures Sum(InBags(states[s := p], x)) == Sum(InBags(states, x)) - states[s].bag[x] + p.bag[x]
  {
    SumUpdate(InBags(states, x), s, p.bag[x]);
    assert InBags(states[s := p], x) == InBags(states, x)[s := p.bag[x]];
  }

  // ---- every step moves sessions, and neither copies nor loses one ----

  /** Session `x` is in one place, if it has been created: this thread, `rest` places of other
      threads, and the places that are not threads are counted together. */
  predicate InOnePlace(g: Shared, f: Frame, x: SessionId, rest: nat) {
    Elsewhere(g, x) + InFrame(f, x) + rest == One(x < g.next)
  }

  lemma IdleMoves(g: Shared, f: Frame, ch: Choice, g': Shared, f': Frame, x: SessionId, rest: nat)
    requires At(g, f, Between) && ActIdle(g, f, ch) == Moved(g', f')
    requires InOnePlace(g, f, x, rest)
    ensures InOnePlace(g', f', x, rest)
  {
    SameBags(g.states, g'.states, x);
  }

  lemma EnterMoves(g: Shared, f: Frame, ch: Choice, g': Shared, f': Frame, x: SessionId, rest: nat)
    requires At(g, f, Entering) && ActEnter(g, f, ch) == Moved(g', f')
    requires InOnePlace(g, f, x, rest)
    ensures InOnePlace(g', f', x, rest)
  {
    if g'.states != g.states {
      assert InBags(g'.states, x) == InBags(g.states, x) + [0];
      SumAppend(InBags(g.states, x), 0);
    }
  }

  lemma OneLess(bag: multiset<SessionId>, y: SessionId, x: SessionId)
    requires y in bag
    ensures (bag - multiset{y})[x] + One(y == x) == bag[x]
  {
  }

  /** A session taken out of a bag, in `Rent` or in `Clear`, or an empty bag. */
  lemma TakesOut(g: Shared, f: Frame, ch: Choice, onTaken: Pc, onEmpty: Pc, g': Shared, f': Frame, x: SessionId)
    requires f.state < |g.states| && TryTake(g, f, ch, onTaken, onEmpty) == Moved(g', f') && onTaken != onEmpty
    ensures f.state < |g'.states| && g' == Update(g, f.state, g'.states[f.state])
    ensures f'.pc == onTaken || (f'.pc == onEmpty && f' == f.(pc := onEmpty))
    ensures g'.states[f.state].bag[x] + One(f'.pc == onTaken && f'.session == x) == g.states[f.state].bag[x]
  {
    if ch.Pick? && ch.x in g.states[f.state].bag { OneLess(g.states[f.state].bag, ch.x, x); }
  }

  lemma TakenMoves(g: Shared, f: Frame, ch: Choice, onTaken: Pc, onEmpty: Pc, g': Shared, f': Frame, x: SessionId, rest: nat)
    requires f.state < |g.states| && TryTake(g, f, ch, onTaken, onEmpty) == Moved(g', f')
    requires !Holds(f.pc) && Holds(onTaken) && !Holds(onEmpty) && InOnePlace(g, f, x, rest)
    ensures InOnePlace(g', f', x, rest)
  {
    TakesOut(g, f, ch, onTaken, onEmpty, g', f', x);
    PlacesMove(g, f, g', f', g'.states[f.state], x, rest);
  }

  lemma PlacesMove(g: Shared, f: Frame, g': Shared, f': Frame, p: PoolState, x: SessionId, rest: nat)
    requires f.state < |g.states| && g' == Update(g, f.state, p)
      && p.bag[x] + InFrame(f', x) == g.states[f.state].bag[x] + InFrame(f, x)
    requires InOnePlace(g, f, x, rest)
    ensures InOnePlace(g', f', x, rest)
  {
    BagUpdate(g.states, f.state, p, x);
  }

  lemma TryMoves(g: Shared, f: Frame, ch: Choice, g': Shared, f': Frame, x: SessionId, rest: nat)
    requires At(g, f, Trying) && ActTry(g, f, ch) == Moved(g', f')
    requires InOnePlace(g, f, x, rest)
    ensures InOnePlace(g', f', x, rest)
  {
    TakenMoves(g, f, ch, Validate, ReadCount, g', f', x, rest);
  }

  lemma ValidateMoves(g: Shared, f: Frame, ch: Choice, g': Shared, f': Frame, x: SessionId, rest: nat)
    requires At(g, f, Validating) && ActValidate(g, f, ch) == Moved(g', f')
    requires InOnePlace(g, f, x, rest)
    ensures InOnePlace(g', f', x, rest)
  {
    SameBags(g.states, g'.states, x);
  }

  lemma ReserveMoves(g: Shared, f: Frame, ch: Choice, g': Shared, f': Frame, x: SessionId, rest: nat)
    requires At(g, f, Reserving) && ActReserve(g, f, ch) == Moved(g', f')
    requires InOnePlace(g, f, x, rest)
    ensures InOnePlace(g', f', x, rest)
  {
    SameBags(g.states, g'.states, x);
  }

  lemma OpenMoves(g: Shared, f: Frame, ch: Choice, g': Shared, f': Frame, x: SessionId, rest: nat)
    requires At(g, f, OpeningUp) && ActOpen(g, f, ch) == Moved(g', f')
    requires InOnePlace(g, f, x, rest)
    ensures InOnePlace(g', f', x, rest)
  {
    SameBags(g.states, g'.states, x);
  }

  lemma RegisterMoves(g: Shared, f: Frame, ch: Choice, g': Shared, f': Frame, x: SessionId, rest: nat)
    requires At(g, f, Registering) && ActRegister(g, f, ch) == Moved(g', f')
    requires InOnePlace(g, f, x, rest)
    ensures InOnePlace(g', f', x, rest)
  {
    SameBags(g.states, g'.states, x);
  }

  lemma WakeMoves(g: Shared, f: Frame, ch: Choice, g': Shared, f': Frame, x: SessionId, rest: nat)
    requires At(g, f, Waking) && ActWake(g, f, ch) == Moved(g', f')
    requires InOnePlace(g, f, x, rest)
    ensures InOnePlace(g', f', x, rest)
  {
    SameBags(g.states, g'.states, x);
  }

  lemma LeaveMoves(g: Shared, f: Frame, ch: Choice, g': Shared, f': Frame, x: SessionId, rest: nat)
    requires At(g, f, Leaving) && ActLeave(g, f, ch) == Moved(g', f')
    requires InOnePlace(g, f, x, rest)
    ensures InOnePlace(g', f', x, rest)
  {
    SameBags(g.states, g'.states, x);
  }

  lemma LookupMoves(g: Shared, f: Frame, ch: Choice, g': Shared, f': Frame, x: SessionId, rest: nat)
    requires At(g, f, LookingUp) && ActLookup(g, f, ch) == Moved(g', f')
    requires InOnePlace(g, f, x, rest)
    ensures InOnePlace(g', f', x, rest)
  {
    SameBags(g.states, g'.states, x);
  }

  lemma ReturnMoves(g: Shared, f: Frame, ch: Choice, g': Shared, f': Frame, x: SessionId, rest: nat)
    requires At(g, f, Returning) && ActReturn(g, f, ch) == Moved(g', f')
    requires InOnePlace(g, f, x, rest)
    ensures InOnePlace(g', f', x, rest)
  {
    if !f.pc.ReturnDispose? { BagUpdate(g.states, f.state, g'.states[f.state], x); }
  }

  lemma DrainMoves(g: Shared, f: Frame, ch: Choice, g': Shared, f': Frame, x: SessionId, rest: nat)
    requires At(g, f, Draining) && ActDrain(g, f, ch) == Moved(g', f')
    requires InOnePlace(g, f, x, rest)
    ensures InOnePlace(g', f', x, rest)
  {
    TakenMoves(g, f, ch, DrainDispose, ReadWaiters, g', f', x, rest);
  }

  lemma DismissMoves(g: Shared, f: Frame, ch: Choice, g': Shared, f': Frame, x: SessionId, rest: nat)
    requires At(g, f, Dismissing) && ActDismiss(g, f, ch) == Moved(g', f')
    requires InOnePlace(g, f, x, rest)
    ensures InOnePlace(g', f', x, rest)
  {
    SameBags(g.states, g'.states, x);
  }

  lemma ActMoves(g: Shared, f: Frame, ch: Choice, g': Shared, f': Frame, x: SessionId, rest: nat)
    requires FrameInRange(f, |g.states|) && Act(g, f, ch) == Moved(g', f')
    requires InOnePlace(g, f, x, rest)
    ensures InOnePlace(g', f', x, rest)
  {
    match PhaseOf(f.pc) {
      case Between => IdleMoves(g, f, ch, g', f', x, rest);
      case Entering => EnterMoves(g, f, ch, g', f', x, rest);
      case Trying => TryMoves(g, f, ch, g', f', x, rest);
      case Validating => ValidateMoves(g, f, ch, g', f', x, rest);
      case Reserving => ReserveMoves(g, f, ch, g', f', x, rest);
      case OpeningUp => OpenMoves(g, f, ch, g', f', x, rest);
      case Registering => RegisterMoves(g, f, ch, g', f', x, rest);
      case Waking => WakeMoves(g, f, ch, g', f', x, rest);
      case Leaving => LeaveMoves(g, f, ch, g', f', x, rest);
      case LookingUp => LookupMoves(g, f, ch, g', f', x, rest);
      case Returning => ReturnMoves(g, f, ch, g', f', x, rest);
      case Draining => DrainMoves(g, f, ch, g', f', x, rest);
      case Dismissing => DismissMoves(g, f, ch, g', f', x, rest);
    }
  }

  lemma StepMoves(c: Config, i: nat, ch: Choice, c': Config)
    requires Owned(c) && Step(c, i, ch) == Some(c')
    ensures Owned(c')
  {
    var f, f' := c.threads[i], c'.threads[i];
    forall x: SessionId ensures Places(c', x) == One(x < c'.shared.next) {
      var ns := InFrames(c.threads, x);
      SumUpdate(ns, i, InFrame(f', x));
      assert InFrames(c'.threads, x) == ns[i := InFrame(f', x)];
      assert Places(c, x) == One(x < c.shared.next);
      ActMoves(c.shared, f, ch, c'.shared, f', x, Sum(ns) - ns[i]);
    }
  }

  lemma InitOwned(threads: nat, maxPoolSize: nat)
    ensures Owned(Init(threads, maxPoolSize))
  {
    forall x: SessionId ensures Places(Init(threads, maxPoolSize), x) == 0 {
      SumZero(InFrames(Init(threads, maxPoolSize).threads, x));
    }
  }

  lemma {:induction false} RunMoves(c: Config, schedule: seq<Move>, c': Config)
    requires Owned(c) && Run(c, schedule) == Some(c')
    ensures Owned(c')
  {
    if schedule != [] {
      var last := |schedule| - 1;
      var r := Run(c, schedule[..last]);
      RunMoves(c, schedule[..last], r.value);
      StepMoves(r.value, schedule[last].thread, schedule[last].choice, c');
    }
  }

  /** Exclusive ownership, over all runs: every session created is in exactly one place. */
  lemma ExclusiveOwnership(c: Config)
    requires Reachable(c)
    ensures Owned(c)
  {
    var threads: nat, maxPoolSize: nat, schedule: seq<Move> :|
      maxPoolSize >= 1 && Run(Init(threads, maxPoolSize), schedule) == Some(c);
    InitOwned(threads, maxPoolSize);
    RunMoves(Init(threads, maxPoolSize), schedule, c);
  }

  /** A session an open connection holds is held by nobody else: it is in no bag, in no thread,
      and not disposed. */
  lemma RentedExclusively(c: Config, x: SessionId)
    requires Reachable(c) && x in c.shared.rented
    ensures x !in c.shared.disposed && x < c.shared.next
    ensures forall s: StateId :: s < |c.shared.states| ==> x !in c.shared.states[s].bag
    ensures forall k: nat :: k < |c.threads| && Holds(c.threads[k].pc) ==> c.threads[k].session != x
  {
    ExclusiveOwnership(c);
    assert Places(c, x) == One(x < c.shared.next);
    forall s: StateId | s < |c.shared.states| ensures x !in c.shared.states[s].bag {
      SumUpdate(InBags(c.shared.states, x), s, 0);
    }
    forall k: nat | k < |c.threads| && Holds(c.threads[k].pc) ensures c.threads[k].session != x {
      SumUpdate(InFrames(c.threads, x), k, 0);
    }
  }

  /** The session `Rent` is about to return is in no other place: no bag, no other thread, no
      open connection, and the pool has not disposed it. */
  lemma HandedOutExclusively(c: Config, i: nat)
    requires Reachable(c) && i < |c.threads| && Holds(c.threads[i].pc)
    ensures
      var x := c.threads[i].session;
      && x !in c.shared.rented && x !in c.shared.disposed && x < c.shared.next
      && (forall s: StateId :: s < |c.shared.states| ==> x !in c.shared.states[s].bag)
      && (forall k: nat :: k < |c.threads| && k != i && Holds(c.threads[k].pc) ==> c.threads[k].session != x)
  {
    ExclusiveOwnership(c);
    var x := c.threads[i].session;
    assert Places(c, x) == One(x < c.shared.next);
    SumUpdate(InFrames(c.threads, x), i, 0);
    forall s: StateId | s < |c.shared.states| ensures x !in c.shared.states[s].bag {
      SumUpdate(InBags(c.shared.states, x), s, 0);
    }
    forall k: nat | k < |c.threads| && k != i && Holds(c.threads[k].pc) ensures c.threads[k].session != x {
      SumOfTwo(InFrames(c.threads, x), i, k);
    }
  }

  /** A disposed session is in no bag, in no thread, and not handed out. */
  lemma DisposedIsNowhere(c: Config, x: SessionId)
    requires Reachable(c) && x in c.shared.disposed
    ensures x !in c.shared.rented
    ensures forall s: StateId :: s < |c.shared.states| ==> x !in c.shared.states[s].bag
    ensures forall k: nat :: k < |c.threads| && Holds(c.threads[k].pc) ==> c.threads[k].session != x
  {
    ExclusiveOwnership(c);
    assert Places(c, x) == One(x < c.shared.next);
    forall s: StateId | s < |c.shared.states| ensures x !in c.shared.states[s].bag {
      SumUpdate(InBags(c.shared.states, x), s, 0);
    }
    forall k: nat | k < |c.threads| && Holds(c.threads[k].pc) ensures c.threads[k].session != x {
      SumUpdate(InFrames(c.threads, x), k, 0);
    }
  }
}
