/** Head counts over the threads of a pool, and what they prove about waiting:
    no wakeup is lost, and `Clear` strands nobody. */
module PoolWakeup {
  import opened Options
  import opened Counting
  import opened PoolModel

  /** How many threads are in which role with respect to one pool state. */
  datatype Tally = Tally(
    registered: nat,    // counted in Waiters: between the increment and its `finally`
    waiting: nat,       // passed the membership check and have not yet left the wait
    committed: nat,     // saw the pool full and have not been woken
    roused: nat,        // consumed a permit and have not yet tried the bag
    looping: nat,       // about to read Count, or to reserve the slot they read
    releasing: nat,     // added a session or freed a slot and still owe its permit
    clearing: nat,      // retired the pool state and have not yet read Waiters
    broadcasting: nat)  // permits counted by a Clear and not yet released

  const NOBODY := Tally(0, 0, 0, 0, 0, 0, 0, 0)

  function RolesAt(pc: Pc, n: int): Tally {
    match pc
    case Register => NOBODY.(committed := 1)
    case CheckMember => NOBODY.(registered := 1, committed := 1)
    case Blocked => NOBODY.(registered := 1, waiting := 1, committed := 1)
    case Cancelled => NOBODY.(registered := 1)
    case Woken => NOBODY.(registered := 1, roused := 1)
    case Recheck | Retake => NOBODY.(roused := 1)
    case ReadCount | CompareExchange => NOBODY.(looping := 1)
    case FailRelease | Release => NOBODY.(releasing := 1)
    case Drain | DrainDispose | ReadWaiters => NOBODY.(clearing := 1)
    case Broadcast => NOBODY.(broadcasting := if n > 0 then n else 0)
    case _ => NOBODY
  }

  /** The roles of a thread by its position alone. */
  function Here(s: StateId, f: Frame): Tally {
    if f.state == s then RolesAt(f.pc, f.number) else NOBODY
  }

  // ---- head counts ----

  /** The roles by name, so that heads can be counted one role at a time. */
  datatype Role = Registered | Waiting | Committed | Roused | Looping | Releasing | Clearers | Broadcasts

  /** The registrations a thread still owes count as well. */
  function Weight(r: Role, s: StateId, f: Frame): nat {
    match r
    case Registered => Here(s, f).registered + multiset(f.pending)[s]
    case Waiting => Here(s, f).waiting
    case Committed => Here(s, f).committed
    case Roused => Here(s, f).roused
    case Looping => Here(s, f).looping
    case Releasing => Here(s, f).releasing
    case Clearers => Here(s, f).clearing
    case Broadcasts => Here(s, f).broadcasting
  }

  function Weights(r: Role, s: StateId, threads: seq<Frame>): (ns: seq<nat>)
    ensures |ns| == |threads| && forall k :: 0 <= k < |ns| ==> ns[k] == Weight(r, s, threads[k])
  {
    seq(|threads|, k requires 0 <= k < |threads| => Weight(r, s, threads[k]))
  }

  function Heads(r: Role, s: StateId, threads: seq<Frame>): nat {
    Sum(Weights(r, s, threads))
  }

  /** The head count of all threads with respect to pool state `s`. */
  function Crowd(s: StateId, threads: seq<Frame>): Tally {
    Tally(Heads(Registered, s, threads), Heads(Waiting, s, threads), Heads(Committed, s, threads),
          Heads(Roused, s, threads), Heads(Looping, s, threads), Heads(Releasing, s, threads),
          Heads(Clearers, s, threads), Heads(Broadcasts, s, threads))
  }

  lemma HeadsUpdate(r: Role, s: StateId, threads: seq<Frame>, i: nat, f: Frame)
    requires i < |threads|
    ensures Weight(r, s, threads[i]) <= Heads(r, s, threads)
    ensures Heads(r, s, threads[i := f]) == Heads(r, s, threads) - Weight(r, s, threads[i]) + Weight(r, s, f)
  {
    SumUpdate(Weights(r, s, threads), i, Weight(r, s, f));
    assert Weights(r, s, threads[i := f]) == Weights(r, s, threads)[i := Weight(r, s, f)];
  }

  /** Somebody in a role is counted. */
  lemma HeadsAtLeast(r: Role, s: StateId, threads: seq<Frame>, i: nat)
    requires i < |threads|
    ensures Weight(r, s, threads[i]) <= Heads(r, s, threads)
  {
    HeadsUpdate(r, s, threads, i, threads[i]);
  }

  lemma WaitingAreRegistered(s: StateId, threads: seq<Frame>)
    ensures Heads(Waiting, s, threads) <= Heads(Registered, s, threads)
  {
    SumMonotone(Weights(Waiting, s, threads), Weights(Registered, s, threads));
  }

  /** A pool state that no frame names has nobody in any role. */
  lemma HeadsOfUnnamed(r: Role, s: StateId, threads: seq<Frame>)
    requires forall k :: 0 <= k < |threads| ==> FrameInRange(threads[k], s)
    ensures Heads(r, s, threads) == 0
  {
    forall k | 0 <= k < |threads| ensures Weight(r, s, threads[k]) == 0 {
      assert FrameInRange(threads[k], s);
    }
    SumZero(Weights(r, s, threads));
  }

  // ---- the invariant, for the others `t` and the thread that is about to step, `h` ----

  /** Permits, releases still owed, and threads that were woken and have not yet looked. */
  function Signals(p: PoolState, t: Tally, h: Tally): nat {
    p.permits + t.releasing + h.releasing + t.roused + h.roused
  }

  /** Every idle session of a live pool is covered by a signal. */
  predicate IdleSignalled(p: PoolState, live: bool, t: Tally, h: Tally) {
    live ==> |p.bag| <= Signals(p, t, h)
  }

  /** Once somebody is about to wait, so is every free slot, unless a thread is on its way to it. */
  predicate CapacitySignalled(p: PoolState, live: bool, maxPoolSize: nat, t: Tally, h: Tally) {
    live && t.committed + h.committed > 0 ==>
      |p.bag| + (maxPoolSize - p.count) <= Signals(p, t, h) + t.looping + h.looping
  }

  /** A retired pool state is being cleared, or has a permit for everyone still waiting on it. */
  predicate RetiredReleased(p: PoolState, live: bool, t: Tally, h: Tally) {
    && (live ==> t.clearing + h.clearing == 0 && t.broadcasting + h.broadcasting == 0)
    && (!live && t.clearing + h.clearing == 0 ==>
          t.waiting + h.waiting <= p.permits + t.broadcasting + h.broadcasting)
  }

  predicate StateInv(p: PoolState, live: bool, maxPoolSize: nat, t: Tally, h: Tally) {
    && p.count <= maxPoolSize
    && p.waiters == t.registered + h.registered
    && IdleSignalled(p, live, t, h)
    && CapacitySignalled(p, live, maxPoolSize, t, h)
    && RetiredReleased(p, live, t, h)
  }

  ghost predicate Inv(g: Shared, s: StateId, t: Tally, h: Tally)
    requires s < |g.states|
  {
    StateInv(g.states[s], g.active == Some(s), g.maxPoolSize, t, h)
  }

  /** A thread about to reserve a slot did not read a full pool. */
  predicate ReadFree(f: Frame, maxPoolSize: nat) {
    f.pc.CompareExchange? ==> f.number < maxPoolSize
  }

  ghost predicate InRange(c: Config) {
    && SharedInRange(c.shared)
    && forall k :: 0 <= k < |c.threads| ==> FrameInRange(c.threads[k], |c.shared.states|)
  }

  ghost predicate WaitInv(c: Config) {
    && InRange(c)
    && (forall k :: 0 <= k < |c.threads| ==> ReadFree(c.threads[k], c.shared.maxPoolSize))
    && (forall s: StateId :: s < |c.shared.states| ==> Inv(c.shared, s, Crowd(s, c.threads), NOBODY))
  }

  // ---- every step keeps it ----

  /** The registrations a step leaves owed: `Rent` restarting from inside the `try`. */
  function Restarted(s: StateId, f: Frame, f': Frame): nat {
    if f.pc.CheckMember? && f'.pc.GetOrAdd? && f.state == s then 1 else 0
  }

  lemma TakeOne(bag: multiset<SessionId>, x: SessionId)
    requires x in bag
    ensures |bag - multiset{x}| == |bag| - 1
  {
  }

  lemma IdleKeeps(g: Shared, f: Frame, ch: Choice, g': Shared, f': Frame, s: StateId, t: Tally)
    requires At(g, f, Between) && s < |g.states|
    requires ActIdle(g, f, ch) == Moved(g', f') && Inv(g, s, t, Here(s, f))
    ensures s < |g'.states| && Inv(g', s, t, Here(s, f'))
  {
  }

  lemma EnterKeeps(g: Shared, f: Frame, ch: Choice, g': Shared, f': Frame, s: StateId, t: Tally)
    requires At(g, f, Entering) && s < |g.states|
    requires ActEnter(g, f, ch) == Moved(g', f') && Inv(g, s, t, Here(s, f))
    ensures s < |g'.states| && Inv(g', s, t, Here(s, f'))
  {
  }

  lemma TryKeeps(g: Shared, f: Frame, ch: Choice, g': Shared, f': Frame, s: StateId, t: Tally)
    requires At(g, f, Trying) && s < |g.states|
    requires ActTry(g, f, ch) == Moved(g', f') && Inv(g, s, t, Here(s, f))
    ensures s < |g'.states| && Inv(g', s, t, Here(s, f'))
  {
    if ch.Pick? && ch.x in g.states[f.state].bag { TakeOne(g.states[f.state].bag, ch.x); }
  }

  lemma ValidateKeeps(g: Shared, f: Frame, ch: Choice, g': Shared, f': Frame, s: StateId, t: Tally)
    requires At(g, f, Validating) && s < |g.states|
    requires ActValidate(g, f, ch) == Moved(g', f') && Inv(g, s, t, Here(s, f))
    ensures s < |g'.states| && Inv(g', s, t, Here(s, f'))
  {
  }

  lemma ReserveKeeps(g: Shared, f: Frame, ch: Choice, g': Shared, f': Frame, s: StateId, t: Tally)
    requires At(g, f, Reserving) && s < |g.states| && ReadFree(f, g.maxPoolSize)
    requires ActReserve(g, f, ch) == Moved(g', f') && Inv(g, s, t, Here(s, f))
    ensures s < |g'.states| && Inv(g', s, t, Here(s, f'))
  {
  }

  lemma OpenKeeps(g: Shared, f: Frame, ch: Choice, g': Shared, f': Frame, s: StateId, t: Tally)
    requires At(g, f, OpeningUp) && s < |g.states|
    requires ActOpen(g, f, ch) == Moved(g', f') && Inv(g, s, t, Here(s, f))
    ensures s < |g'.states| && Inv(g', s, t, Here(s, f'))
  {
  }

  lemma BlockedKeeps(g: Shared, f: Frame, ch: Choice, g': Shared, f': Frame, s: StateId, t: Tally)
    requires At(g, f, Registering) && s < |g.states| && f.pc.Blocked?
    requires ActRegister(g, f, ch) == Moved(g', f') && Inv(g, s, t, Here(s, f))
    ensures s < |g'.states| && Inv(g', s, t.(registered := t.registered + Restarted(s, f, f')), Here(s, f'))
  {
  }

  lemma RegisterKeeps(g: Shared, f: Frame, ch: Choice, g': Shared, f': Frame, s: StateId, t: Tally)
    requires At(g, f, Registering) && s < |g.states|
    requires ActRegister(g, f, ch) == Moved(g', f') && Inv(g, s, t, Here(s, f))
    ensures s < |g'.states| && Inv(g', s, t.(registered := t.registered + Restarted(s, f, f')), Here(s, f'))
  {
    if f.pc.Blocked? { BlockedKeeps(g, f, ch, g', f', s, t); }
  }

  lemma WakeKeeps(g: Shared, f: Frame, ch: Choice, g': Shared, f': Frame, s: StateId, t: Tally)
    requires At(g, f, Waking) && s < |g.states|
    requires ActWake(g, f, ch) == Moved(g', f') && Inv(g, s, t, Here(s, f))
    ensures s < |g'.states| && Inv(g', s, t, Here(s, f'))
  {
  }

  lemma LookupKeeps(g: Shared, f: Frame, ch: Choice, g': Shared, f': Frame, s: StateId, t: Tally)
    requires At(g, f, LookingUp) && s < |g.states|
    requires ActLookup(g, f, ch) == Moved(g', f') && Inv(g, s, t, Here(s, f))
    ensures s < |g'.states| && Inv(g', s, t, Here(s, f'))
  {
  }

  lemma ReturnKeeps(g: Shared, f: Frame, ch: Choice, g': Shared, f': Frame, s: StateId, t: Tally)
    requires At(g, f, Returning) && s < |g.states|
    requires ActReturn(g, f, ch) == Moved(g', f') && Inv(g, s, t, Here(s, f))
    ensures s < |g'.states| && Inv(g', s, t, Here(s, f'))
  {
  }

  /** What lies in the bag of a retired pool state bears on nobody who waits. */
  lemma BagOfRetired(p: PoolState, bag: multiset<SessionId>, maxPoolSize: nat, t: Tally, h: Tally)
    requires StateInv(p, false, maxPoolSize, t, h)
    ensures StateInv(p.(bag := bag), false, maxPoolSize, t, h)
  {
  }

  lemma DrainKeeps(g: Shared, f: Frame, ch: Choice, g': Shared, f': Frame, s: StateId, t: Tally)
    requires At(g, f, Draining) && s < |g.states|
    requires ActDrain(g, f, ch) == Moved(g', f') && Inv(g, s, t, Here(s, f))
    ensures s < |g'.states| && Inv(g', s, t, Here(s, f'))
  {
    assert Here(s, f') == Here(s, f) && g'.active == g.active && g'.maxPoolSize == g.maxPoolSize;
    if f.state == s {
      assert g.active != Some(s);
      var p := g.states[s];
      assert g'.states[s] == p.(bag := g'.states[s].bag);
      BagOfRetired(p, g'.states[s].bag, g.maxPoolSize, t, Here(s, f));
    }
  }

  lemma DismissKeeps(g: Shared, f: Frame, ch: Choice, g': Shared, f': Frame, s: StateId, t: Tally)
    requires At(g, f, Dismissing) && s < |g.states|
    requires t.waiting <= t.registered
    requires ActDismiss(g, f, ch) == Moved(g', f') && Inv(g, s, t, Here(s, f))
    ensures s < |g'.states| && Inv(g', s, t, Here(s, f'))
  {
  }

  lemma ActKeeps(g: Shared, f: Frame, ch: Choice, g': Shared, f': Frame, s: StateId, t: Tally)
    requires FrameInRange(f, |g.states|) && ReadFree(f, g.maxPoolSize) && s < |g.states|
    requires t.waiting <= t.registered && PhaseOf(f.pc) != Leaving
    requires Act(g, f, ch) == Moved(g', f') && Inv(g, s, t, Here(s, f))
    ensures s < |g'.states| && Inv(g', s, t.(registered := t.registered + Restarted(s, f, f')), Here(s, f'))
  {
    match PhaseOf(f.pc) {
      case Between => IdleKeeps(g, f, ch, g', f', s, t);
      case Entering => EnterKeeps(g, f, ch, g', f', s, t);
      case Trying => TryKeeps(g, f, ch, g', f', s, t);
      case Validating => ValidateKeeps(g, f, ch, g', f', s, t);
      case Reserving => ReserveKeeps(g, f, ch, g', f', s, t);
      case OpeningUp => OpenKeeps(g, f, ch, g', f', s, t);
      case Registering => RegisterKeeps(g, f, ch, g', f', s, t);
      case Waking => WakeKeeps(g, f, ch, g', f', s, t);
      case LookingUp => LookupKeeps(g, f, ch, g', f', s, t);
      case Returning => ReturnKeeps(g, f, ch, g', f', s, t);
      case Draining => DrainKeeps(g, f, ch, g', f', s, t);
      case Dismissing => DismissKeeps(g, f, ch, g', f', s, t);
    }
  }

  /** Leaving pays one owed registration back. */
  lemma LeaveKeeps(g: Shared, f: Frame, ch: Choice, g': Shared, f': Frame, s: StateId, t: Tally)
    requires At(g, f, Leaving) && s < |g.states|
    requires ActLeave(g, f, ch) == Moved(g', f')
    requires Inv(g, s, AndOwed(s, t, f), NOBODY)
    ensures s < |g'.states| && Inv(g', s, AndOwed(s, t, f'), NOBODY)
    ensures Here(s, f) == Here(s, f') == NOBODY
  {
    if f.pending != [] {
      assert f.pending == f'.pending + [f.pending[|f.pending| - 1]];
    }
  }

  /** Head count `total` is the head count `t` and one more thread with roles `h`. */
  predicate IsSum(total: Tally, t: Tally, h: Tally) {
    && total.registered == t.registered + h.registered && total.waiting == t.waiting + h.waiting
    && total.committed == t.committed + h.committed && total.roused == t.roused + h.roused
    && total.looping == t.looping + h.looping && total.releasing == t.releasing + h.releasing
    && total.clearing == t.clearing + h.clearing && total.broadcasting == t.broadcasting + h.broadcasting
  }

  /** The head count of everybody but thread `i`. */
  function Others(s: StateId, threads: seq<Frame>, i: nat): Tally
    requires i < |threads|
  {
    Crowd(s, threads[i := IDLE_FRAME])
  }

  /** `t` with the registrations of frame `f` that are still owed. */
  function AndOwed(s: StateId, t: Tally, f: Frame): Tally {
    t.(registered := t.registered + multiset(f.pending)[s])
  }

  lemma CrowdSplit(s: StateId, threads: seq<Frame>, i: nat, f: Frame)
    requires i < |threads|
    ensures IsSum(Crowd(s, threads[i := f]), AndOwed(s, Others(s, threads, i), f), Here(s, f))
    ensures Others(s, threads, i).waiting <= Others(s, threads, i).registered
  {
    var idle := threads[i := IDLE_FRAME];
    forall r: Role ensures Heads(r, s, threads[i := f]) == Heads(r, s, idle) + Weight(r, s, f) {
      HeadsUpdate(r, s, idle, i, f);
      assert idle[i := f] == threads[i := f];
    }
    assert forall r: Role :: Heads(r, s, threads[i := f]) == Heads(r, s, idle) + Weight(r, s, f);
    WaitingAreRegistered(s, idle);
  }

  lemma InvSplit(g: Shared, s: StateId, total: Tally, t: Tally, h: Tally)
    requires s < |g.states| && IsSum(total, t, h)
    ensures Inv(g, s, total, NOBODY) <==> Inv(g, s, t, h)
  {
  }

  lemma FrameKeeps(g: Shared, f: Frame, ch: Choice, g': Shared, f': Frame, s: StateId, t: Tally)
    requires FrameInRange(f, |g.states|) && ReadFree(f, g.maxPoolSize) && s < |g.states|
    requires t.waiting <= t.registered
    requires Act(g, f, ch) == Moved(g', f') && Inv(g, s, AndOwed(s, t, f), Here(s, f))
    ensures s < |g'.states| && Inv(g', s, AndOwed(s, t, f'), Here(s, f'))
  {
    if PhaseOf(f.pc) == Leaving {
      LeaveKeeps(g, f, ch, g', f', s, t);
    } else {
      ActKeeps(g, f, ch, g', f', s, AndOwed(s, t, f));
    }
  }

  lemma StepKeepsState(c: Config, i: nat, ch: Choice, c': Config, s: StateId)
    requires WaitInv(c) && Step(c, i, ch) == Some(c') && s < |c.shared.states|
    ensures s < |c'.shared.states| && Inv(c'.shared, s, Crowd(s, c'.threads), NOBODY)
  {
    var f, f' := c.threads[i], c'.threads[i];
    var t := Others(s, c.threads, i);
    assert c.threads[i := f] == c.threads && c'.threads == c.threads[i := f'];
    CrowdSplit(s, c.threads, i, f);
    CrowdSplit(s, c.threads, i, f');
    InvSplit(c.shared, s, Crowd(s, c.threads), AndOwed(s, t, f), Here(s, f));
    FrameKeeps(c.shared, f, ch, c'.shared, f', s, t);
    InvSplit(c'.shared, s, Crowd(s, c'.threads), AndOwed(s, t, f'), Here(s, f'));
  }

  lemma FreshStateInv(g: Shared, s: StateId, t: Tally, h: Tally)
    requires s < |g.states| && g.states[s] == EMPTY_POOL && t == h == NOBODY
    ensures Inv(g, s, t, h)
  {
  }

  lemma CrowdOfUnnamed(s: StateId, threads: seq<Frame>)
    requires forall k :: 0 <= k < |threads| ==> FrameInRange(threads[k], s)
    ensures Crowd(s, threads) == NOBODY
  {
    HeadsOfUnnamed(Registered, s, threads); HeadsOfUnnamed(Waiting, s, threads);
    HeadsOfUnnamed(Committed, s, threads); HeadsOfUnnamed(Roused, s, threads);
    HeadsOfUnnamed(Looping, s, threads); HeadsOfUnnamed(Releasing, s, threads);
    HeadsOfUnnamed(Clearers, s, threads); HeadsOfUnnamed(Broadcasts, s, threads);
  }

  /** The pool state a step adds starts out with nobody in it. */
  lemma StepAddsState(c: Config, i: nat, ch: Choice, c': Config)
    requires InRange(c) && Step(c, i, ch) == Some(c') && |c'.shared.states| > |c.shared.states|
    ensures |c'.shared.states| == |c.shared.states| + 1
    ensures Inv(c'.shared, |c.shared.states|, Crowd(|c.shared.states|, c'.threads), NOBODY)
  {
    var f' := c'.threads[i];
    assert Regular(c.shared, c.threads[i], Moved(c'.shared, f'));
    assert c'.threads == c.threads[i := f'];
    NewcomerInv(c.shared, c.threads, i, c'.shared, f');
  }

  lemma NewcomerInv(g: Shared, threads: seq<Frame>, i: nat, g': Shared, f': Frame)
    requires i < |threads| && forall k :: 0 <= k < |threads| ==> FrameInRange(threads[k], |g.states|)
    requires g'.states == g.states + [EMPTY_POOL] && f'.pc.FastTake?
    requires forall k :: 0 <= k < |f'.pending| ==> f'.pending[k] < |g.states|
    ensures Inv(g', |g.states|, Crowd(|g.states|, threads[i := f']), NOBODY)
  {
    var s := |g.states|;
    CrowdOfUnnamed(s, threads[i := IDLE_FRAME]);
    CrowdSplit(s, threads, i, f');
    assert Here(s, f') == NOBODY && multiset(f'.pending)[s] == 0;
    FreshStateInv(g', s, AndOwed(s, NOBODY, f'), Here(s, f'));
    InvSplit(g', s, Crowd(s, threads[i := f']), AndOwed(s, NOBODY, f'), Here(s, f'));
  }

  /** Every step of every thread keeps the invariant. */
  lemma StepKeepsInv(c: Config, i: nat, ch: Choice, c': Config)
    requires WaitInv(c) && Step(c, i, ch) == Some(c')
    ensures WaitInv(c')
  {
    assert Act(c.shared, c.threads[i], ch) == Moved(c'.shared, c'.threads[i]);
    assert Regular(c.shared, c.threads[i], Moved(c'.shared, c'.threads[i]));
    forall s: StateId | s < |c'.shared.states|
      ensures Inv(c'.shared, s, Crowd(s, c'.threads), NOBODY)
    {
      if s < |c.shared.states| { StepKeepsState(c, i, ch, c', s); } else { StepAddsState(c, i, ch, c'); }
    }
  }

  lemma InitInv(threads: nat, maxPoolSize: nat)
    ensures WaitInv(Init(threads, maxPoolSize))
  {
  }

  lemma {:induction false} RunKeepsInv(c: Config, schedule: seq<Move>, c': Config)
    requires WaitInv(c) && Run(c, schedule) == Some(c')
    ensures WaitInv(c')
  {
    if schedule != [] {
      var last := |schedule| - 1;
      var r := Run(c, schedule[..last]);
      RunKeepsInv(c, schedule[..last], r.value);
      StepKeepsInv(r.value, schedule[last].thread, schedule[last].choice, c');
    }
  }

  lemma ReachableInv(c: Config)
    requires Reachable(c)
    ensures WaitInv(c)
  {
    var threads: nat, maxPoolSize: nat, schedule: seq<Move> :|
      maxPoolSize >= 1 && Run(Init(threads, maxPoolSize), schedule) == Some(c);
    RunKeepsInv(Init(threads, maxPoolSize), schedule, c);
  }

  lemma ReachableStateInv(c: Config, s: StateId)
    requires Reachable(c) && s < |c.shared.states|
    ensures Inv(c.shared, s, Crowd(s, c.threads), NOBODY)
  {
    ReachableInv(c);
  }

  // ---- what it means ----

  /** A thread that is going to look at the bag or at `Count` of its pool state without waiting
      first, or that owes it a permit. */
  predicate OnItsWay(pc: Pc) {
    pc.Release? || pc.FailRelease? || pc.Woken? || pc.Recheck? || pc.Retake? || pc.ReadCount? || pc.CompareExchange?
  }

  /** A thread inside `Clear` that has yet to wake the waiters of its pool state. */
  predicate Dismisses(pc: Pc) {
    pc.Drain? || pc.DrainDispose? || pc.ReadWaiters? || pc.Broadcast?
  }

  lemma NobodyOnItsWay(c: Config, s: StateId)
    requires forall k :: 0 <= k < |c.threads| ==> !(OnItsWay(c.threads[k].pc) && c.threads[k].state == s)
    ensures Heads(Roused, s, c.threads) == Heads(Looping, s, c.threads) == Heads(Releasing, s, c.threads) == 0
  {
    SumZero(Weights(Roused, s, c.threads));
    SumZero(Weights(Looping, s, c.threads));
    SumZero(Weights(Releasing, s, c.threads));
  }

  lemma NobodyDismisses(c: Config, s: StateId)
    requires forall k :: 0 <= k < |c.threads| ==> !(Dismisses(c.threads[k].pc) && c.threads[k].state == s)
    ensures Heads(Clearers, s, c.threads) == Heads(Broadcasts, s, c.threads) == 0
  {
    SumZero(Weights(Clearers, s, c.threads));
    SumZero(Weights(Broadcasts, s, c.threads));
  }

  /** In every reachable state, once a thread has seen the live pool full, its idle sessions and
      free slots are covered by permits, releases still owed, and threads on their way. */
  lemma SignalsCoverCapacity(c: Config, s: StateId, i: nat)
    requires Reachable(c) && c.shared.active == Some(s) && i < |c.threads| && c.threads[i].state == s
    requires c.threads[i].pc.Register? || c.threads[i].pc.CheckMember? || c.threads[i].pc.Blocked?
    ensures s < |c.shared.states|
    ensures |c.shared.states[s].bag| + (c.shared.maxPoolSize - c.shared.states[s].count)
              <= c.shared.states[s].permits + Heads(Releasing, s, c.threads)
                 + Heads(Roused, s, c.threads) + Heads(Looping, s, c.threads)
  {
    ReachableInv(c);
    HeadsAtLeast(Committed, s, c.threads, i);
    ReachableStateInv(c, s);
  }

  /** No wakeup is lost: in every reachable state, a thread that waits on the live pool with no
      permit left and nobody on the way waits for good reason: no session is idle and every slot
      is taken. */
  lemma NoLostWakeup(c: Config, s: StateId, i: nat)
    requires Reachable(c) && c.shared.active == Some(s)
    requires i < |c.threads| && c.threads[i].pc.Blocked? && c.threads[i].state == s
    requires Step(c, i, Go).None?
    requires forall k :: 0 <= k < |c.threads| ==> !(OnItsWay(c.threads[k].pc) && c.threads[k].state == s)
    ensures s < |c.shared.states|
    ensures c.shared.states[s].bag == multiset{} && c.shared.states[s].count == c.shared.maxPoolSize
  {
    ReachableInv(c);
    SignalsCoverCapacity(c, s, i);
    NobodyOnItsWay(c, s);
    ReachableStateInv(c, s);
    BlockedWithoutPermit(c, i);
  }

  lemma BlockedWithoutPermit(c: Config, i: nat)
    requires i < |c.threads| && c.threads[i].pc.Blocked? && FrameInRange(c.threads[i], |c.shared.states|)
    ensures Step(c, i, Go).None? <==> c.shared.states[c.threads[i].state].permits == 0
  {
  }

  /** `Clear` strands nobody: in every reachable state, a thread that waits on a retired pool state
      can take a permit, unless a `Clear` of that pool state has yet to wake its waiters. */
  lemma ClearStrandsNobody(c: Config, s: StateId, i: nat)
    requires Reachable(c) && c.shared.active != Some(s)
    requires i < |c.threads| && c.threads[i].pc.Blocked? && c.threads[i].state == s
    requires forall k :: 0 <= k < |c.threads| ==> !(Dismisses(c.threads[k].pc) && c.threads[k].state == s)
    ensures Step(c, i, Go).Some?
    ensures s < |c.shared.states| && Heads(Waiting, s, c.threads) <= c.shared.states[s].permits
  {
    ReachableInv(c);
    ReachableStateInv(c, s);
    NobodyDismisses(c, s);
    HeadsAtLeast(Waiting, s, c.threads, i);
    BlockedWithoutPermit(c, i);
  }

  lemma WaitsOnlyOnActive(g: Shared, f: Frame, g': Shared, f': Frame, s: StateId)
    requires Regular(g, f, Moved(g', f')) && s < |g.states| && g.active != Some(s)
    ensures s < |g'.states| && g'.active != Some(s) && Weight(Waiting, s, f') <= Weight(Waiting, s, f)
  {
  }

  lemma RetiredStep(c: Config, i: nat, ch: Choice, c': Config, s: StateId)
    requires Step(c, i, ch) == Some(c') && s < |c.shared.states| && c.shared.active != Some(s)
    ensures s < |c'.shared.states| && c'.shared.active != Some(s)
    ensures Heads(Waiting, s, c'.threads) <= Heads(Waiting, s, c.threads)
  {
    WaitsOnlyOnActive(c.shared, c.threads[i], c'.shared, c'.threads[i], s);
    HeadsUpdate(Waiting, s, c.threads, i, c'.threads[i]);
  }

  /** Whatever runs afterwards, a retired pool state stays retired and nobody starts to wait on it. */
  lemma {:induction false} RetiredForGood(c: Config, schedule: seq<Move>, c': Config, s: StateId)
    requires WaitInv(c) && Run(c, schedule) == Some(c')
    requires s < |c.shared.states| && c.shared.active != Some(s)
    ensures s < |c'.shared.states| && c'.shared.active != Some(s)
    ensures Heads(Waiting, s, c'.threads) <= Heads(Waiting, s, c.threads)
  {
    if schedule != [] {
      var last := |schedule| - 1;
      var r := Run(c, schedule[..last]);
      RunKeepsInv(c, schedule[..last], r.value);
      RetiredForGood(c, schedule[..last], r.value, s);
      RetiredStep(r.value, schedule[last].thread, schedule[last].choice, c', s);
    }
  }
}
