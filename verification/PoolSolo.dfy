/** How long a `Rent` can take when no other thread steps. */
module PoolSolo {
  import opened Options
  import opened PoolModel
  import PoolWakeup

  /** Inside `Rent` or `RentAsync`. */
  predicate Renting(pc: Pc) {
    match PhaseOf(pc)
    case Between | LookingUp | Returning | Draining | Dismissing => false
    case _ => !pc.Remove?
  }

  /** The permits, possibly stale, of the live pool state. */
  function LivePermits(g: Shared): nat {
    if g.active.Some? && g.active.value < |g.states| then g.states[g.active.value].permits else 0
  }

  /** Steps left, not counting turns of the loop that consume a permit each. */
  function Rank(g: Shared, f: Frame): nat
    requires FrameInRange(f, |g.states|)
  {
    var live := g.active == Some(f.state);
    match f.pc
    case Deliver | Throw => 1
    case Cancelled => 2
    case FailRelease => 9
    case FailDecrement => 10
    case Opening => 11
    case CompareExchange =>
      if g.states[f.state].count == f.number then 12 else if live then 17 else 26
    case ReadCount =>
      if g.states[f.state].count < g.maxPoolSize then 13 else if live then 16 else 25
    case EvictDecrement => 14
    case EvictDispose => 15
    case Validate => 16
    case FastTake | Retake => if live then 17 else 27
    case GetOrAdd => 18
    case Register => if live then 15 else 24
    case CheckMember => if live then 14 else 23
    case Blocked => if live then 13 else 22
    case Woken => if live then 19 else 21
    case Recheck => if live then 18 else 20
    case _ => 0
  }

  /** A bound on the steps left: seven for every permit of the live pool state, one for every
      `finally` block still owed, and a constant. */
  function Fuel(g: Shared, f: Frame): nat
    requires FrameInRange(f, |g.states|)
  {
    7 * LivePermits(g) + |f.pending| + Rank(g, f)
  }

  ghost predicate Decreases(g: Shared, f: Frame, g': Shared, f': Frame)
    requires FrameInRange(f, |g.states|)
  {
    f'.pc.Idle? || (FrameInRange(f', |g'.states|) && Renting(f'.pc) && Fuel(g', f') < Fuel(g, f))
  }

  lemma EnterDecreases(g: Shared, f: Frame, ch: Choice, g': Shared, f': Frame)
    requires SharedInRange(g) && At(g, f, Entering) && Renting(f.pc)
    requires ActEnter(g, f, ch) == Moved(g', f')
    ensures Decreases(g, f, g', f')
  {
  }

  lemma TryDecreases(g: Shared, f: Frame, ch: Choice, g': Shared, f': Frame)
    requires SharedInRange(g) && At(g, f, Trying) && Renting(f.pc)
    requires ActTry(g, f, ch) == Moved(g', f')
    ensures Decreases(g, f, g', f')
  {
  }

  lemma ValidateDecreases(g: Shared, f: Frame, ch: Choice, g': Shared, f': Frame)
    requires SharedInRange(g) && At(g, f, Validating) && Renting(f.pc)
    requires g.states[f.state].count <= g.maxPoolSize
    requires ActValidate(g, f, ch) == Moved(g', f')
    ensures Decreases(g, f, g', f')
  {
  }

  lemma ReserveDecreases(g: Shared, f: Frame, ch: Choice, g': Shared, f': Frame)
    requires SharedInRange(g) && At(g, f, Reserving) && Renting(f.pc)
    requires ActReserve(g, f, ch) == Moved(g', f')
    ensures Decreases(g, f, g', f')
  {
  }

  lemma OpenDecreases(g: Shared, f: Frame, ch: Choice, g': Shared, f': Frame)
    requires SharedInRange(g) && At(g, f, OpeningUp) && Renting(f.pc)
    requires ActOpen(g, f, ch) == Moved(g', f')
    ensures Decreases(g, f, g', f')
  {
  }

  lemma RegisterDecreases(g: Shared, f: Frame, ch: Choice, g': Shared, f': Frame)
    requires SharedInRange(g) && At(g, f, Registering) && Renting(f.pc)
    requires ActRegister(g, f, ch) == Moved(g', f')
    ensures Decreases(g, f, g', f')
  {
  }

  lemma WakeDecreases(g: Shared, f: Frame, ch: Choice, g': Shared, f': Frame)
    requires SharedInRange(g) && At(g, f, Waking) && Renting(f.pc)
    requires ActWake(g, f, ch) == Moved(g', f')
    ensures Decreases(g, f, g', f')
  {
  }

  lemma LeaveDecreases(g: Shared, f: Frame, ch: Choice, g': Shared, f': Frame)
    requires SharedInRange(g) && At(g, f, Leaving) && Renting(f.pc)
    requires ActLeave(g, f, ch) == Moved(g', f')
    ensures Decreases(g, f, g', f')
  {
  }

  lemma ActDecreases(g: Shared, f: Frame, ch: Choice, g': Shared, f': Frame)
    requires SharedInRange(g) && FrameInRange(f, |g.states|) && Renting(f.pc)
    requires UsesState(f.pc) ==> g.states[f.state].count <= g.maxPoolSize
    requires Act(g, f, ch) == Moved(g', f')
    ensures Decreases(g, f, g', f')
  {
    match PhaseOf(f.pc) {
      case Entering => EnterDecreases(g, f, ch, g', f');
      case Trying => TryDecreases(g, f, ch, g', f');
      case Validating => ValidateDecreases(g, f, ch, g', f');
      case Reserving => ReserveDecreases(g, f, ch, g', f');
      case OpeningUp => OpenDecreases(g, f, ch, g', f');
      case Registering => RegisterDecreases(g, f, ch, g', f');
      case Waking => WakeDecreases(g, f, ch, g', f');
      case Leaving => LeaveDecreases(g, f, ch, g', f');
      case _ =>
    }
  }

  /** `schedule` is a run of thread `i` alone that stays inside `Rent` until its last step. */
  ghost predicate SoloRun(c: Config, i: nat, schedule: seq<Move>) {
    && Run(c, schedule).Some?
    && forall k :: 0 <= k < |schedule| ==>
         && schedule[k].thread == i
         && var r := Run(c, schedule[..k]);
            r.Some? && i < |r.value.threads| && Renting(r.value.threads[i].pc)
  }

  /** All but the last step of a solo run, and the last one. */
  lemma SoloLast(c: Config, i: nat, schedule: seq<Move>)
    requires SoloRun(c, i, schedule) && schedule != []
    ensures
      var last := |schedule| - 1;
      var init := schedule[..last];
      && SoloRun(c, i, init) && Run(c, schedule).Some?
      && Step(Run(c, init).value, i, schedule[last].choice) == Run(c, schedule)
      && i < |Run(c, init).value.threads| && Renting(Run(c, init).value.threads[i].pc)
  {
    var init := schedule[..|schedule| - 1];
    forall k | 0 <= k < |init| ensures init[k] == schedule[k] && init[..k] == schedule[..k] { }
  }

  /** The invariant and the fuel after a solo run. */
  ghost predicate Spent(c: Config, i: nat, steps: nat, d: Config)
    requires PoolWakeup.WaitInv(c) && i < |c.threads|
  {
    && PoolWakeup.WaitInv(d) && i < |d.threads| && steps <= Fuel(c.shared, c.threads[i])
    && (Renting(d.threads[i].pc) ==> steps + Fuel(d.shared, d.threads[i]) <= Fuel(c.shared, c.threads[i]))
  }

  lemma SpentMore(c: Config, i: nat, steps: nat, d: Config, ch: Choice, e: Config)
    requires PoolWakeup.WaitInv(c) && i < |c.threads| && Spent(c, i, steps, d)
    requires Renting(d.threads[i].pc) && Step(d, i, ch) == Some(e)
    ensures Spent(c, i, steps + 1, e)
  {
    PoolWakeup.StepKeepsInv(d, i, ch, e);
    SoloStep(d, i, ch, e);
  }

  lemma {:induction false} SoloFuel(c: Config, i: nat, schedule: seq<Move>)
    requires PoolWakeup.WaitInv(c) && i < |c.threads| && SoloRun(c, i, schedule)
    ensures Spent(c, i, |schedule|, Run(c, schedule).value)
  {
    if schedule != [] {
      var last := |schedule| - 1;
      SoloLast(c, i, schedule);
      SoloFuel(c, i, schedule[..last]);
      SpentMore(c, i, last, Run(c, schedule[..last]).value, schedule[last].choice, Run(c, schedule).value);
    }
  }

  lemma SoloStep(d: Config, i: nat, ch: Choice, e: Config)
    requires PoolWakeup.WaitInv(d) && i < |d.threads| && Renting(d.threads[i].pc)
    requires Step(d, i, ch) == Some(e)
    ensures i < |e.threads| && Decreases(d.shared, d.threads[i], e.shared, e.threads[i])
  {
    var f := d.threads[i];
    if UsesState(f.pc) {
      assert PoolWakeup.Inv(d.shared, f.state, PoolWakeup.Crowd(f.state, d.threads), PoolWakeup.NOBODY);
    }
    ActDecreases(d.shared, f, ch, e.shared, e.threads[i]);
  }

  lemma FuelBound(g: Shared, f: Frame)
    requires FrameInRange(f, |g.states|)
    ensures Fuel(g, f) <= 7 * LivePermits(g) + |f.pending| + 27
  {
  }

  /** Solo termination: from any reachable state, a `Rent` that runs alone has returned, thrown or
      blocked after at most seven steps for every permit of the live pool state, one for every
      restart it has yet to unwind, and twenty-seven more. */
  lemma SoloTermination(c: Config, i: nat, schedule: seq<Move>)
    requires Reachable(c) && i < |c.threads| && SoloRun(c, i, schedule)
    ensures |schedule| <= 7 * LivePermits(c.shared) + |c.threads[i].pending| + 27
  {
    PoolWakeup.ReachableInv(c);
    FuelBound(c.shared, c.threads[i]);
    SoloFuel(c, i, schedule);
  }

  /** A choice with which a thread inside `Rent` can step. */
  ghost function Able(g: Shared, f: Frame): Choice
    requires FrameInRange(f, |g.states|) && Renting(f.pc)
  {
    match f.pc
    case Validate | Opening => Answer(true)
    case FastTake | Retake =>
      if g.states[f.state].bag == multiset{} then Go else var x :| x in g.states[f.state].bag; Pick(x)
    case _ => Go
  }

  /** Inside `Rent` only the wait can block, and only while there is no permit. */
  lemma BlocksOnlyAtWait(g: Shared, f: Frame)
    requires FrameInRange(f, |g.states|) && Renting(f.pc)
    ensures Act(g, f, Able(g, f)).Moved? <==> !(f.pc.Blocked? && g.states[f.state].permits == 0)
  {
  }

  // ---- Return and Clear ----

  /** Inside `Return` or `Clear`. */
  predicate GivingBack(pc: Pc) { !Renting(pc) && !pc.Idle? }

  /** Steps left of a `Return` or a `Clear`: two for every idle session, and a few more. */
  function StepsToEnd(g: Shared, f: Frame): nat
    requires SharedInRange(g) && FrameInRange(f, |g.states|)
  {
    match f.pc
    case Lookup => 3
    case Add => 2
    case Release | ReturnDispose => 1
    case Remove => if g.active.Some? then 2 * |g.states[g.active.value].bag| + 4 else 1
    case Drain => 2 * |g.states[f.state].bag| + 3
    case DrainDispose => 2 * |g.states[f.state].bag| + 4
    case ReadWaiters => 2
    case Broadcast => 1
    case _ => 0
  }

  lemma CanStep(g: Shared, f: Frame)
    requires FrameInRange(f, |g.states|) && GivingBack(f.pc) && (f.pc.Broadcast? ==> f.number >= 0)
    ensures exists c: Choice :: Act(g, f, c).Moved?
  {
    if f.pc.Drain? && g.states[f.state].bag != multiset{} {
      var x :| x in g.states[f.state].bag;
      assert Act(g, f, Pick(x)).Moved?;
    } else {
      assert Act(g, f, Go).Moved?;
    }
  }

  /** The call has ended, or fewer steps are left. */
  ghost predicate StepsDown(g: Shared, f: Frame, g': Shared, f': Frame)
    requires SharedInRange(g) && FrameInRange(f, |g.states|)
  {
    || f'.pc.Idle?
    || (GivingBack(f'.pc) && SharedInRange(g') && FrameInRange(f', |g'.states|) && StepsToEnd(g', f') < StepsToEnd(g, f))
  }

  lemma LookupStepsDown(g: Shared, f: Frame, ch: Choice, g': Shared, f': Frame)
    requires SharedInRange(g) && At(g, f, LookingUp) && ActLookup(g, f, ch) == Moved(g', f')
    ensures StepsDown(g, f, g', f')
  {
  }

  lemma ReturnStepsDown(g: Shared, f: Frame, ch: Choice, g': Shared, f': Frame)
    requires SharedInRange(g) && At(g, f, Returning) && ActReturn(g, f, ch) == Moved(g', f')
    ensures StepsDown(g, f, g', f')
  {
  }

  lemma RemoveStepsDown(g: Shared, f: Frame, ch: Choice, g': Shared, f': Frame)
    requires SharedInRange(g) && f.pc.Remove? && FrameInRange(f, |g.states|) && ActEnter(g, f, ch) == Moved(g', f')
    ensures StepsDown(g, f, g', f')
  {
  }

  lemma DrainStepsDown(g: Shared, f: Frame, ch: Choice, g': Shared, f': Frame)
    requires SharedInRange(g) && At(g, f, Draining) && ActDrain(g, f, ch) == Moved(g', f')
    ensures StepsDown(g, f, g', f')
  {
    if ch.Pick? && ch.x in g.states[f.state].bag { PoolWakeup.TakeOne(g.states[f.state].bag, ch.x); }
  }

  lemma DismissStepsDown(g: Shared, f: Frame, ch: Choice, g': Shared, f': Frame)
    requires SharedInRange(g) && At(g, f, Dismissing) && ActDismiss(g, f, ch) == Moved(g', f')
    ensures StepsDown(g, f, g', f')
  {
  }

  /** `Return` and `Clear` never wait, and come to their end by themselves: a thread inside one of them
      can always step, and each step of its own ends the call or leaves fewer. */
  lemma NeverWaits(g: Shared, f: Frame, ch: Choice, g': Shared, f': Frame)
    requires SharedInRange(g) && FrameInRange(f, |g.states|) && GivingBack(f.pc) && (f.pc.Broadcast? ==> f.number >= 0)
    ensures exists c: Choice :: Act(g, f, c).Moved?
    ensures Act(g, f, ch) == Moved(g', f') ==> StepsDown(g, f, g', f')
  {
    CanStep(g, f);
    if Act(g, f, ch) == Moved(g', f') {
      match PhaseOf(f.pc)
      case LookingUp => LookupStepsDown(g, f, ch, g', f');
      case Returning => ReturnStepsDown(g, f, ch, g', f');
      case Entering => RemoveStepsDown(g, f, ch, g', f');
      case Draining => DrainStepsDown(g, f, ch, g', f');
      case Dismissing => DismissStepsDown(g, f, ch, g', f');
    }
  }
}
