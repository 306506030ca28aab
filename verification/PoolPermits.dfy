/** Where the permits of a pool state come from and where they go. */
module PoolPermits {
  import opened Options
  import opened PoolModel

  /** The number of waiters thread `i` read when it last did. */
  function WaitersRead(c: Config, schedule: seq<Move>, i: nat): int
    requires Run(c, schedule).Some?
  {
    if schedule == [] then 0
    else
      var last := |schedule| - 1;
      var m, r := schedule[last], Run(c, schedule[..last]).value;
      if m.thread == i && i < |r.threads| && r.threads[i].pc.ReadWaiters? && r.threads[i].state < |r.shared.states| then
        r.shared.states[r.threads[i].state].waiters
      else WaitersRead(c, schedule[..last], i)
  }

  /** The permits one operation is to release: one for a session given back or a slot given up, and as
      many as there were waiters for a pool state that has been cleared. */
  function Owed(f: Frame, s: StateId, read: int): nat {
    if f.state != s then 0
    else
      match f.pc
      case Release | FailRelease => 1
      case Broadcast => if read > 0 then read else 0
      case _ => 0
  }

  /** The permits one operation consumes: a wait, one. */
  function Consumed(f: Frame, s: StateId, ch: Choice): nat {
    if f.pc.Blocked? && f.state == s && ch == Go then 1 else 0
  }

  function Released(c: Config, schedule: seq<Move>, s: StateId): nat
    requires Run(c, schedule).Some?
  {
    if schedule == [] then 0
    else
      var last := |schedule| - 1;
      var m, r := schedule[last], Run(c, schedule[..last]).value;
      Released(c, schedule[..last], s) +
        if m.thread < |r.threads| then Owed(r.threads[m.thread], s, WaitersRead(c, schedule[..last], m.thread)) else 0
  }

  function Waited(c: Config, schedule: seq<Move>, s: StateId): nat
    requires Run(c, schedule).Some?
  {
    if schedule == [] then 0
    else
      var last := |schedule| - 1;
      var m, r := schedule[last], Run(c, schedule[..last]).value;
      Waited(c, schedule[..last], s) + if m.thread < |r.threads| then Consumed(r.threads[m.thread], s, m.choice) else 0
  }

  /** What a thread that is about to wake the waiters has read. */
  predicate Knows(f: Frame, read: int) {
    f.pc.Broadcast? ==> f.number == read > 0
  }

  lemma ActKnows(g: Shared, f: Frame, ch: Choice, g': Shared, f': Frame, read: int)
    requires FrameInRange(f, |g.states|) && Act(g, f, ch) == Moved(g', f') && Knows(f, read)
    ensures Knows(f', if f.pc.ReadWaiters? then g.states[f.state].waiters else read)
  {
    if f'.pc.Broadcast? { BroadcastFrom(g, f, ch, g', f'); }
  }

  lemma NoBroadcastBefore(g: Shared, f: Frame, ch: Choice, g': Shared, f': Frame)
    requires FrameInRange(f, |g.states|) && Act(g, f, ch) == Moved(g', f') && PhaseOf(f.pc) != Dismissing
    ensures !f'.pc.Broadcast?
  {
    if !Searching(f) { NoBroadcastOutside(g, f, ch, g', f'); }
  }

  lemma NoBroadcastOutside(g: Shared, f: Frame, ch: Choice, g': Shared, f': Frame)
    requires FrameInRange(f, |g.states|) && Act(g, f, ch) == Moved(g', f') && PhaseOf(f.pc) != Dismissing && !Searching(f)
    ensures !f'.pc.Broadcast?
  {
  }

  lemma BroadcastFrom(g: Shared, f: Frame, ch: Choice, g': Shared, f': Frame)
    requires FrameInRange(f, |g.states|) && Act(g, f, ch) == Moved(g', f') && f'.pc.Broadcast?
    ensures f.pc.ReadWaiters? && f'.number == g.states[f.state].waiters > 0
  {
    if PhaseOf(f.pc) != Dismissing { NoBroadcastBefore(g, f, ch, g', f'); }
  }

  /** The permits of `s` after one step. */
  ghost predicate Balanced(g: Shared, f: Frame, ch: Choice, g': Shared, s: StateId, read: int) {
    && |g.states| <= |g'.states|
    && (s < |g.states| ==> g'.states[s].permits + Consumed(f, s, ch) == g.states[s].permits + Owed(f, s, read))
    && (|g.states| <= s < |g'.states| ==> g'.states[s].permits == 0)
  }

  lemma SearchBalances(g: Shared, f: Frame, ch: Choice, g': Shared, f': Frame, s: StateId, read: int)
    requires FrameInRange(f, |g.states|) && Act(g, f, ch) == Moved(g', f') && Knows(f, read) && Searching(f)
    ensures Balanced(g, f, ch, g', s, read)
  {
  }

  lemma WaitBalances(g: Shared, f: Frame, ch: Choice, g': Shared, f': Frame, s: StateId, read: int)
    requires FrameInRange(f, |g.states|) && Act(g, f, ch) == Moved(g', f') && Knows(f, read)
    requires PhaseOf(f.pc) in {Between, Registering, Waking, Leaving}
    ensures Balanced(g, f, ch, g', s, read)
  {
  }

  lemma GiveBalances(g: Shared, f: Frame, ch: Choice, g': Shared, f': Frame, s: StateId, read: int)
    requires FrameInRange(f, |g.states|) && Act(g, f, ch) == Moved(g', f') && Knows(f, read)
    requires PhaseOf(f.pc) in {LookingUp, Returning}
    ensures Balanced(g, f, ch, g', s, read)
  {
  }

  lemma DrainBalances(g: Shared, f: Frame, ch: Choice, g': Shared, f': Frame, s: StateId, read: int)
    requires At(g, f, Draining) && ActDrain(g, f, ch) == Moved(g', f')
    ensures Balanced(g, f, ch, g', s, read)
  {
  }

  lemma DismissBalances(g: Shared, f: Frame, ch: Choice, g': Shared, f': Frame, s: StateId, read: int)
    requires At(g, f, Dismissing) && ActDismiss(g, f, ch) == Moved(g', f') && Knows(f, read)
    ensures Balanced(g, f, ch, g', s, read)
  {
  }

  lemma ActBalances(g: Shared, f: Frame, ch: Choice, g': Shared, f': Frame, s: StateId, read: int)
    requires FrameInRange(f, |g.states|) && Act(g, f, ch) == Moved(g', f') && Knows(f, read)
    ensures Balanced(g, f, ch, g', s, read)
  {
    match PhaseOf(f.pc)
    case Between | Registering | Waking | Leaving => WaitBalances(g, f, ch, g', f', s, read);
    case LookingUp | Returning => GiveBalances(g, f, ch, g', f', s, read);
    case Draining => DrainBalances(g, f, ch, g', f', s, read);
    case Dismissing => DismissBalances(g, f, ch, g', f', s, read);
    case _ => SearchBalances(g, f, ch, g', f', s, read);
  }

  lemma StepBalances(r: Config, m: Move, c: Config, s: StateId, read: int)
    requires Step(r, m.thread, m.choice) == Some(c) && Knows(r.threads[m.thread], read)
    ensures Balanced(r.shared, r.threads[m.thread], m.choice, c.shared, s, read)
    ensures s >= |r.shared.states| ==>
      Owed(r.threads[m.thread], s, read) == Consumed(r.threads[m.thread], s, m.choice) == 0
  {
    ActBalances(r.shared, r.threads[m.thread], m.choice, c.shared, c.threads[m.thread], s, read);
  }

  lemma {:induction false} RunKnows(threads: nat, maxPoolSize: nat, schedule: seq<Move>, c: Config, i: nat)
    requires Run(Init(threads, maxPoolSize), schedule) == Some(c) && i < threads
    ensures |c.threads| == threads && Knows(c.threads[i], WaitersRead(Init(threads, maxPoolSize), schedule, i))
  {
    if schedule != [] {
      var last := |schedule| - 1;
      var c0, m := Init(threads, maxPoolSize), schedule[last];
      var r := Run(c0, schedule[..last]).value;
      RunKnows(threads, maxPoolSize, schedule[..last], r, i);
      if m.thread == i {
        ActKnows(r.shared, r.threads[i], m.choice, c.shared, c.threads[i], WaitersRead(c0, schedule[..last], i));
      }
    }
  }

  lemma {:induction false} KeepsThreads(c: Config, schedule: seq<Move>, c': Config)
    requires Run(c, schedule) == Some(c')
    ensures |c'.threads| == |c.threads|
  {
    if schedule != [] { KeepsThreads(c, schedule[..|schedule| - 1], Run(c, schedule[..|schedule| - 1]).value); }
  }

  /** The permit ledger.  In every run, the permits of a pool state and those its waits have consumed
      are together exactly one for every session given back to it, one for every slot given up in it,
      and, if it has been cleared, as many as there were waiters then. */
  lemma {:induction false} PermitLedger(threads: nat, maxPoolSize: nat, schedule: seq<Move>, c: Config, s: StateId)
    requires Run(Init(threads, maxPoolSize), schedule) == Some(c)
    ensures
      var c0 := Init(threads, maxPoolSize);
      (if s < |c.shared.states| then c.shared.states[s].permits else 0) + Waited(c0, schedule, s) == Released(c0, schedule, s)
  {
    if schedule != [] {
      var last := |schedule| - 1;
      var c0, m := Init(threads, maxPoolSize), schedule[last];
      var r := Run(c0, schedule[..last]).value;
      PermitLedger(threads, maxPoolSize, schedule[..last], r, s);
      KeepsThreads(c0, schedule[..last], r);
      RunKnows(threads, maxPoolSize, schedule[..last], r, m.thread);
      var read := WaitersRead(c0, schedule[..last], m.thread);
      StepBalances(r, m, c, s, read);
    }
  }
}
