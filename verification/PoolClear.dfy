/** What `Clear` leaves behind, and what a cleared pool state is still used for; and where the permits
    of a pool state come from and go to. */
module PoolClear {
  import opened Options
  import opened PoolModel
  import opened PoolOwnership
  import opened PoolRuns
  import opened PoolWakeup

  /** What a step did: the shared state and the frame before it, and the choice. */
  type Deed = (Shared, Frame, Choice) -> bool

  /** Some step of the run did this. */
  ghost predicate Happened(c: Config, schedule: seq<Move>, deed: Deed)
    requires Run(c, schedule).Some?
  {
    schedule != [] &&
    var last := |schedule| - 1;
    var m, r := schedule[last], Run(c, schedule[..last]).value;
    || Happened(c, schedule[..last], deed)
    || (m.thread < |r.threads| && deed(r.shared, r.threads[m.thread], m.choice))
  }

  // ---- a cleared pool state is emptied ----

  /** Session `x` is given back to pool state `s`. */
  function Added(s: StateId, x: SessionId): Deed {
    (g: Shared, f: Frame, ch: Choice) => f.pc.Add? && f.state == s && f.session == x
  }

  /** A `Rent` takes session `x` out of the bag of pool state `s`. */
  function TakenByRent(s: StateId, x: SessionId): Deed {
    (g: Shared, f: Frame, ch: Choice) => (f.pc.FastTake? || f.pc.Retake?) && f.state == s && ch == Pick(x)
  }

  /** The thread is emptying the bag of pool state `s`. */
  predicate Empties(f: Frame, s: StateId) {
    (f.pc.Drain? || f.pc.DrainDispose?) && f.state == s
  }

  /** What one step may do to the bag of pool state `s` and to session `x`. */
  ghost predicate BagStep(g: Shared, f: Frame, ch: Choice, g': Shared, f': Frame, s: StateId, x: SessionId)
    requires s < |g.states|
  {
    && s < |g'.states| && g.disposed <= g'.disposed
    && (x in g'.states[s].bag ==> x in g.states[s].bag || Added(s, x)(g, f, ch))
    && (x in g.states[s].bag ==>
          || x in g'.states[s].bag || TakenByRent(s, x)(g, f, ch)
          || (f'.pc.DrainDispose? && f'.state == s && f'.session == x))
    && (Empties(f, s) ==> Empties(f', s) || x !in g'.states[s].bag)
    && (f.pc.DrainDispose? ==> f.session in g'.disposed)
  }

  lemma TryingBag(g: Shared, f: Frame, ch: Choice, g': Shared, f': Frame, s: StateId, x: SessionId)
    requires FrameInRange(f, |g.states|) && PhaseOf(f.pc) == Trying && s < |g.states|
    requires ActTry(g, f, ch) == Moved(g', f')
    ensures BagStep(g, f, ch, g', f', s, x)
  {
  }

  lemma DrainingBag(g: Shared, f: Frame, ch: Choice, g': Shared, f': Frame, s: StateId, x: SessionId)
    requires FrameInRange(f, |g.states|) && PhaseOf(f.pc) == Draining && s < |g.states|
    requires ActDrain(g, f, ch) == Moved(g', f')
    ensures BagStep(g, f, ch, g', f', s, x)
  {
  }

  lemma SearchingBag(g: Shared, f: Frame, ch: Choice, g': Shared, f': Frame, s: StateId, x: SessionId)
    requires FrameInRange(f, |g.states|) && Act(g, f, ch) == Moved(g', f') && s < |g.states|
    requires PhaseOf(f.pc) in {Entering, Validating, Reserving, OpeningUp}
    ensures BagStep(g, f, ch, g', f', s, x)
  {
  }

  lemma GivingBag(g: Shared, f: Frame, ch: Choice, g': Shared, f': Frame, s: StateId, x: SessionId)
    requires FrameInRange(f, |g.states|) && Act(g, f, ch) == Moved(g', f') && s < |g.states|
    requires PhaseOf(f.pc) in {LookingUp, Returning, Dismissing}
    ensures BagStep(g, f, ch, g', f', s, x)
  {
  }

  lemma WaitingBag(g: Shared, f: Frame, ch: Choice, g': Shared, f': Frame, s: StateId, x: SessionId)
    requires FrameInRange(f, |g.states|) && Act(g, f, ch) == Moved(g', f') && s < |g.states|
    requires PhaseOf(f.pc) in {Between, Registering, Waking, Leaving}
    ensures BagStep(g, f, ch, g', f', s, x)
  {
  }

  lemma ActBag(g: Shared, f: Frame, ch: Choice, g': Shared, f': Frame, s: StateId, x: SessionId)
    requires FrameInRange(f, |g.states|) && Act(g, f, ch) == Moved(g', f') && s < |g.states|
    ensures BagStep(g, f, ch, g', f', s, x)
  {
    match PhaseOf(f.pc)
    case Trying => TryingBag(g, f, ch, g', f', s, x);
    case Draining => DrainingBag(g, f, ch, g', f', s, x);
    case Entering | Validating | Reserving | OpeningUp => SearchingBag(g, f, ch, g', f', s, x);
    case LookingUp | Returning | Dismissing => GivingBag(g, f, ch, g', f', s, x);
    case Between | Registering | Waking | Leaving => WaitingBag(g, f, ch, g', f', s, x);
  }

  /** Somebody is still emptying the bag, or `x` is not in it, unless it was given back to it. */
  ghost predicate BeingEmptied(c: Config, s: StateId, x: SessionId, added: bool) {
    && s < |c.shared.states|
    && ((exists k :: 0 <= k < |c.threads| && Empties(c.threads[k], s)) || x !in c.shared.states[s].bag || added)
  }

  lemma StepEmpties(c: Config, m: Move, c': Config, s: StateId, x: SessionId, added: bool)
    requires BeingEmptied(c, s, x, added) && Step(c, m.thread, m.choice) == Some(c')
    ensures BeingEmptied(c', s, x, added || Added(s, x)(c.shared, c.threads[m.thread], m.choice))
  {
    var f, f' := c.threads[m.thread], c'.threads[m.thread];
    ActBag(c.shared, f, m.choice, c'.shared, f', s, x);
    if exists k :: 0 <= k < |c.threads| && Empties(c.threads[k], s) {
      var k :| 0 <= k < |c.threads| && Empties(c.threads[k], s);
      if k != m.thread { assert Empties(c'.threads[k], s); }
      if Empties(f', s) { assert Empties(c'.threads[m.thread], s); }
    }
  }

  lemma {:induction false} RunEmpties(c: Config, schedule: seq<Move>, c': Config, s: StateId, x: SessionId)
    requires BeingEmptied(c, s, x, false) && Run(c, schedule) == Some(c')
    ensures BeingEmptied(c', s, x, Happened(c, schedule, Added(s, x)))
  {
    if schedule != [] {
      var last := |schedule| - 1;
      var r := Run(c, schedule[..last]).value;
      RunEmpties(c, schedule[..last], r, s, x);
      StepEmpties(r, schedule[last], c', s, x, Happened(c, schedule[..last], Added(s, x)));
    }
  }

  /** Where a session that was in the bag of `s` is, if no `Rent` has taken it. */
  ghost predicate Followed(c: Config, s: StateId, x: SessionId) {
    && s < |c.shared.states|
    && (x in c.shared.states[s].bag || x in c.shared.disposed
        || exists k :: 0 <= k < |c.threads| && c.threads[k].pc.DrainDispose? && c.threads[k].state == s && c.threads[k].session == x)
  }

  lemma StepFollows(c: Config, m: Move, c': Config, s: StateId, x: SessionId)
    requires Followed(c, s, x) && Step(c, m.thread, m.choice) == Some(c')
    ensures Followed(c', s, x) || TakenByRent(s, x)(c.shared, c.threads[m.thread], m.choice)
  {
    var f, f' := c.threads[m.thread], c'.threads[m.thread];
    ActBag(c.shared, f, m.choice, c'.shared, f', s, x);
    if x in c.shared.states[s].bag {
      if f'.pc.DrainDispose? && f'.state == s && f'.session == x { assert c'.threads[m.thread] == f'; }
    } else if x !in c.shared.disposed {
      var k :| 0 <= k < |c.threads| && c.threads[k].pc.DrainDispose? && c.threads[k].state == s && c.threads[k].session == x;
      if k != m.thread { assert c'.threads[k] == c.threads[k]; }
    }
  }

  /** While it is there nobody can give it back. */
  lemma FollowedIsNotAdded(c: Config, i: nat, s: StateId, x: SessionId)
    requires Reachable(c) && Followed(c, s, x) && i < |c.threads|
    ensures !Added(s, x)(c.shared, c.threads[i], Go)
  {
    if c.threads[i].pc.Add? && c.threads[i].session == x { HandedOutExclusively(c, i); }
  }

  lemma {:induction false} RunFollows(c: Config, schedule: seq<Move>, c': Config, s: StateId, x: SessionId)
    requires Reachable(c) && Followed(c, s, x) && Run(c, schedule) == Some(c')
    ensures Reachable(c')
    ensures Happened(c, schedule, TakenByRent(s, x)) || (Followed(c', s, x) && !Happened(c, schedule, Added(s, x)))
  {
    if schedule != [] {
      var last := |schedule| - 1;
      var m, r := schedule[last], Run(c, schedule[..last]).value;
      RunFollows(c, schedule[..last], r, s, x);
      ReachableStep(r, m.thread, m.choice, c');
      if Followed(r, s, x) {
        StepFollows(r, m, c', s, x);
        FollowedIsNotAdded(r, m.thread, s, x);
      }
    }
  }

  lemma RemoveStartsEmptying(c: Config, i: nat, s: StateId)
    requires i < |c.threads| && c.threads[i].pc.Remove? && FrameInRange(c.threads[i], |c.shared.states|)
    requires c.shared.active == Some(s)
    ensures Step(c, i, Go).Some?
    ensures
      var c1 := Step(c, i, Go).value;
      c1.shared == c.shared.(active := None) && |c1.threads| == |c.threads| && Empties(c1.threads[i], s)
  {
  }

  /** `Clear` empties the pool.  From the step on with which a thread removes the live pool state `s`,
      whatever all threads do: once nobody is emptying its bag any more, no session is in it but those
      given back to it since, by a `Return` that was under way; and every session that was in it has
      been disposed of, or taken by a `Rent` that was under way. */
  lemma ClearEmpties(c: Config, i: nat, s: StateId, c1: Config, schedule: seq<Move>, c': Config, x: SessionId)
    requires Reachable(c) && i < |c.threads| && c.threads[i].pc.Remove? && c.shared.active == Some(s)
    requires Step(c, i, Go) == Some(c1) && Run(c1, schedule) == Some(c')
    requires forall k :: 0 <= k < |c'.threads| ==> !Empties(c'.threads[k], s)
    ensures s < |c.shared.states| && s < |c'.shared.states|
    ensures x in c'.shared.states[s].bag ==> Happened(c1, schedule, Added(s, x))
    ensures x in c.shared.states[s].bag ==> x in c'.shared.disposed || Happened(c1, schedule, TakenByRent(s, x))
  {
    ReachableInv(c);
    RemoveStartsEmptying(c, i, s);
    ReachableStep(c, i, Go, c1);
    assert Empties(c1.threads[i], s);
    RunEmpties(c1, schedule, c', s, x);
    if x in c.shared.states[s].bag {
      RunFollows(c1, schedule, c', s, x);
      NobodyHasIt(c', s, x);
    }
  }

  lemma NobodyHasIt(c: Config, s: StateId, x: SessionId)
    requires forall k :: 0 <= k < |c.threads| ==> !Empties(c.threads[k], s)
    ensures Followed(c, s, x) ==> x in c.shared.disposed || x in c.shared.states[s].bag
  {
  }

  // ---- a cleared pool state is left alone ----

  /** The thread takes sessions or slots from pool state `s`, or gives it one. */
  predicate Uses(f: Frame, s: StateId) {
    f.state == s &&
      (f.pc.FastTake? || f.pc.Validate? || f.pc.EvictDispose? || f.pc.EvictDecrement? || f.pc.ReadCount?
       || f.pc.CompareExchange? || f.pc.Opening? || f.pc.FailDecrement? || f.pc.FailRelease? || f.pc.Deliver?
       || f.pc.Retake? || f.pc.Add? || f.pc.Release?)
  }

  lemma SearchingLeavesAlone(g: Shared, f: Frame, ch: Choice, g': Shared, f': Frame, s: StateId)
    requires FrameInRange(f, |g.states|) && Act(g, f, ch) == Moved(g', f') && Searching(f)
    requires s < |g.states| && g.active != Some(s) && !Uses(f, s)
    ensures g'.active != Some(s) && !Uses(f', s)
  {
  }

  lemma WaitingLeavesAlone(g: Shared, f: Frame, ch: Choice, g': Shared, f': Frame, s: StateId)
    requires FrameInRange(f, |g.states|) && Act(g, f, ch) == Moved(g', f')
    requires PhaseOf(f.pc) in {Between, Registering, Waking, Leaving}
    requires s < |g.states| && g.active != Some(s) && !Uses(f, s)
    ensures g'.active != Some(s) && !Uses(f', s)
  {
  }

  lemma ActLeavesAlone(g: Shared, f: Frame, ch: Choice, g': Shared, f': Frame, s: StateId)
    requires FrameInRange(f, |g.states|) && Act(g, f, ch) == Moved(g', f')
    requires s < |g.states| && g.active != Some(s) && !Uses(f, s)
    ensures g'.active != Some(s) && !Uses(f', s)
  {
    if Searching(f) {
      SearchingLeavesAlone(g, f, ch, g', f', s);
    } else if PhaseOf(f.pc) in {Between, Registering, Waking, Leaving} {
      WaitingLeavesAlone(g, f, ch, g', f', s);
    }
  }

  /** Who is not using a pool state when it is cleared, such as everybody who waits on it, never uses it
      again: gets no session of it, opens none in it, and gives none back to it. */
  lemma {:induction false} ClearedIsLeftAlone(c: Config, schedule: seq<Move>, c': Config, s: StateId, i: nat)
    requires Run(c, schedule) == Some(c') && s < |c.shared.states| && c.shared.active != Some(s)
    requires i < |c.threads| && !Uses(c.threads[i], s)
    ensures s < |c'.shared.states| && c'.shared.active != Some(s) && i < |c'.threads| && !Uses(c'.threads[i], s)
  {
    if schedule != [] {
      var last := |schedule| - 1;
      var m, r := schedule[last], Run(c, schedule[..last]).value;
      ClearedIsLeftAlone(c, schedule[..last], r, s, i);
      assert Regular(r.shared, r.threads[m.thread], Moved(c'.shared, c'.threads[m.thread]));
      if m.thread == i { ActLeavesAlone(r.shared, r.threads[i], m.choice, c'.shared, c'.threads[i], s); }
    }
  }
}
