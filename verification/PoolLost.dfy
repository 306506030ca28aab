/** Sessions that are handed out and never given back: `SqliteConnection.Open` rents one and loses it
    if the connection settings cannot be applied. */
module PoolLost {
  import opened Options
  import opened Counting
  import opened PoolModel
  import opened PoolOwnership
  import opened PoolCapacity
  import PoolRuns

  /** If `maxPoolSize` sessions of a live pool are handed out, nothing else of it exists: no session
      is idle, and no thread holds or opens one. */
  lemma AllHandedOut(c: Config, s: StateId, k: nat)
    requires Reachable(c) && c.shared.active == Some(s) && s < |c.shared.states| && c.shared.states[s].foreign == 0
    requires |RentedFrom(c.shared, s)| >= c.shared.maxPoolSize && k < |c.threads|
    ensures c.shared.states[s].bag == multiset{} && c.shared.states[s].count == c.shared.maxPoolSize
    ensures !HeldAt(c.threads[k], s) && !ReservedAt(c.threads[k], s)
  {
    CountExact(c, s);
    SumUpdate(Occupants(c.threads, s), k, 0);
  }

  lemma SearchingKeeps(g: Shared, f: Frame, ch: Choice, g': Shared, f': Frame)
    requires FrameInRange(f, |g.states|) && Act(g, f, ch) == Moved(g', f') && Searching(f)
    ensures g'.rented == g.rented
  {
  }

  lemma RentedUnchanged(g: Shared, f: Frame, ch: Choice, g': Shared, f': Frame)
    requires FrameInRange(f, |g.states|) && Act(g, f, ch) == Moved(g', f')
    requires PhaseOf(f.pc) != Between && PhaseOf(f.pc) != Leaving
    ensures g'.rented == g.rented
  {
    if Searching(f) { SearchingKeeps(g, f, ch, g', f'); }
  }

  /** The sessions handed out change only when one is given back or a thread delivers one. */
  lemma RentedKept(g: Shared, f: Frame, ch: Choice, g': Shared, f': Frame)
    requires FrameInRange(f, |g.states|) && Act(g, f, ch) == Moved(g', f')
    ensures forall x :: x in g.rented && ch != CallReturn(x) && !(f.pc.Deliver? && x == f.session) ==>
      x in g'.rented && g'.rented[x] == g.rented[x]
  {
    if PhaseOf(f.pc) != Between && PhaseOf(f.pc) != Leaving { RentedUnchanged(g, f, ch, g', f'); }
  }

  /** The sessions of `lost` are handed out by pool state `s`. */
  predicate Lost(c: Config, s: StateId, lost: set<SessionId>) {
    forall x :: x in lost ==> x in c.shared.rented && c.shared.rented[x] == s
  }

  predicate NeverReturned(lost: set<SessionId>, schedule: seq<Move>) {
    forall m :: m in schedule && m.choice.CallReturn? ==> m.choice.x !in lost
  }

  lemma LostStays(c: Config, i: nat, ch: Choice, c': Config, s: StateId, lost: set<SessionId>)
    requires Owned(c) && Step(c, i, ch) == Some(c') && Lost(c, s, lost) && (ch.CallReturn? ==> ch.x !in lost)
    ensures Lost(c', s, lost)
  {
    RentedKept(c.shared, c.threads[i], ch, c'.shared, c'.threads[i]);
    if c.threads[i].pc.Deliver? { DeliversUnrented(c, i); }
  }

  lemma {:induction false} LostForGood(c: Config, schedule: seq<Move>, c': Config, s: StateId, lost: set<SessionId>)
    requires Reachable(c) && Run(c, schedule) == Some(c') && Lost(c, s, lost) && NeverReturned(lost, schedule)
    ensures Reachable(c') && Lost(c', s, lost)
  {
    if schedule != [] {
      var last := |schedule| - 1;
      var r := Run(c, schedule[..last]).value;
      forall m | m in schedule[..last] ensures m in schedule {}
      LostForGood(c, schedule[..last], r, s, lost);
      assert schedule[last] in schedule;
      LostOneMore(r, schedule[last], c', s, lost);
    }
  }

  lemma LostOneMore(r: Config, m: Move, c': Config, s: StateId, lost: set<SessionId>)
    requires Reachable(r) && Lost(r, s, lost) && Step(r, m.thread, m.choice) == Some(c')
    requires m.choice.CallReturn? ==> m.choice.x !in lost
    ensures Reachable(c') && Lost(c', s, lost)
  {
    PoolRuns.ReachableStep(r, m.thread, m.choice, c');
    ExclusiveOwnership(r);
    LostStays(r, m.thread, m.choice, c', s, lost);
  }

  lemma LostAreRented(c: Config, s: StateId, lost: set<SessionId>)
    requires Lost(c, s, lost)
    ensures |lost| <= |RentedFrom(c.shared, s)|
  {
    assert lost <= RentedFrom(c.shared, s);
    SubsetSize(lost, RentedFrom(c.shared, s));
  }

  lemma {:induction false} SubsetSize<T>(a: set<T>, b: set<T>)
    requires a <= b
    ensures |a| <= |b|
  {
    if a != {} {
      var x :| x in a;
      SubsetSize(a - {x}, b - {x});
    }
  }

  /** Lost for good.  Once `maxPoolSize` sessions of a pool have been lost, then in every run in which
      they stay lost, as long as the pool is not cleared and is given no foreign session: no session
      is ever idle, and no thread ever holds or opens one; so every further `Rent` waits. */
  lemma LostSessionsBlock(c: Config, schedule: seq<Move>, c': Config, s: StateId, lost: set<SessionId>, k: nat)
    requires Reachable(c) && Run(c, schedule) == Some(c') && Lost(c, s, lost) && NeverReturned(lost, schedule)
    requires |lost| >= c'.shared.maxPoolSize && c'.shared.active == Some(s)
    requires s < |c'.shared.states| && c'.shared.states[s].foreign == 0 && k < |c'.threads|
    ensures c'.shared.states[s].bag == multiset{} && c'.shared.states[s].count == c'.shared.maxPoolSize
    ensures !HeldAt(c'.threads[k], s) && !ReservedAt(c'.threads[k], s)
  {
    LostForGood(c, schedule, c', s, lost);
    LostAreRented(c', s, lost);
    AllHandedOut(c', s, k);
  }
}
