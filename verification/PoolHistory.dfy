/** What a thread of the pool has been told decides what it does: how a `Rent` ends, when it opens a
    session, what becomes of dead ones, and where the permits come from. */
module PoolHistory {
  import opened Options
  import opened PoolModel
  import opened PoolOwnership
  import opened PoolSolo

  // ---- how a call ends ----

  /** What has been decided about the call a thread is in. */
  datatype Verdict = Undecided | Handed(x: SessionId) | Refused

  /** The operations that decide: a session that was taken is valid, opening one succeeds or fails, a
      wait is cancelled; a new call is undecided. */
  function Decides(g: Shared, f: Frame, ch: Choice, before: Verdict): Verdict {
    match f.pc
    case Idle => Undecided
    case Validate => if ch == Answer(true) then Handed(f.session) else before
    case Opening => if ch == Answer(true) then Handed(g.next) else Refused
    case Blocked => if ch == Cancel then Refused else before
    case _ => before
  }

  /** The verdict on thread `i` after a run that it began at rest. */
  function VerdictOn(c: Config, schedule: seq<Move>, i: nat): Verdict
    requires Run(c, schedule).Some?
  {
    if schedule == [] then Undecided
    else
      var last := |schedule| - 1;
      var m, r := schedule[last], Run(c, schedule[..last]).value;
      var before := VerdictOn(c, schedule[..last], i);
      if m.thread == i && i < |r.threads| then Decides(r.shared, r.threads[i], m.choice, before) else before
  }

  /** A thread inside `Rent` is about to return the session it has been handed, is about to throw, or is
      undecided, just as the verdict says. */
  predicate AsDecided(f: Frame, v: Verdict) {
    Renting(f.pc) ==>
      match v
      case Handed(x) => f.pc.Deliver? && f.session == x
      case Refused => f.pc.Cancelled? || f.pc.FailDecrement? || f.pc.FailRelease? || f.pc.Throw?
      case Undecided =>
        !f.pc.Deliver? && !f.pc.Cancelled? && !f.pc.FailDecrement? && !f.pc.FailRelease? && !f.pc.Throw?
  }

  lemma FirstDecides(g: Shared, f: Frame, ch: Choice, g': Shared, f': Frame, v: Verdict)
    requires FrameInRange(f, |g.states|) && Act(g, f, ch) == Moved(g', f') && AsDecided(f, v)
    requires PhaseOf(f.pc) in {Between, Entering, Trying}
    ensures AsDecided(f', Decides(g, f, ch, v))
  {
  }

  lemma OpenDecides(g: Shared, f: Frame, ch: Choice, g': Shared, f': Frame, v: Verdict)
    requires FrameInRange(f, |g.states|) && Act(g, f, ch) == Moved(g', f') && AsDecided(f, v)
    requires PhaseOf(f.pc) in {Validating, Reserving, OpeningUp}
    ensures AsDecided(f', Decides(g, f, ch, v))
  {
  }

  lemma WaitDecides(g: Shared, f: Frame, ch: Choice, g': Shared, f': Frame, v: Verdict)
    requires FrameInRange(f, |g.states|) && Act(g, f, ch) == Moved(g', f') && AsDecided(f, v)
    requires PhaseOf(f.pc) in {Registering, Waking, Leaving}
    ensures AsDecided(f', Decides(g, f, ch, v))
  {
  }

  lemma ActDecides(g: Shared, f: Frame, ch: Choice, g': Shared, f': Frame, v: Verdict)
    requires FrameInRange(f, |g.states|) && Act(g, f, ch) == Moved(g', f') && AsDecided(f, v)
    ensures AsDecided(f', Decides(g, f, ch, v))
  {
    match PhaseOf(f.pc)
    case Between | Entering | Trying => FirstDecides(g, f, ch, g', f', v);
    case Validating | Reserving | OpeningUp => OpenDecides(g, f, ch, g', f', v);
    case Registering | Waking | Leaving => WaitDecides(g, f, ch, g', f', v);
    case LookingUp | Returning => ReturnEnds(g, f, ch, g', f');
    case Draining | Dismissing => ClearEnds(g, f, ch, g', f');
  }

  /** `Return` and `Clear` do not lead into `Rent`. */
  lemma ReturnEnds(g: Shared, f: Frame, ch: Choice, g': Shared, f': Frame)
    requires FrameInRange(f, |g.states|) && Act(g, f, ch) == Moved(g', f') && PhaseOf(f.pc) in {LookingUp, Returning}
    ensures !Renting(f'.pc)
  {
  }

  lemma ClearEnds(g: Shared, f: Frame, ch: Choice, g': Shared, f': Frame)
    requires FrameInRange(f, |g.states|) && Act(g, f, ch) == Moved(g', f') && PhaseOf(f.pc) in {Draining, Dismissing}
    ensures !Renting(f'.pc)
  {
  }

  /** How a `Rent` ends, over all runs: it returns a session exactly if that was found valid or has just
      been opened, and throws exactly if opening failed or its wait was cancelled. */
  lemma {:induction false} RentEndsAsDecided(c: Config, schedule: seq<Move>, c': Config, i: nat)
    requires Run(c, schedule) == Some(c') && i < |c.threads| && c.threads[i].pc.Idle?
    ensures i < |c'.threads| && AsDecided(c'.threads[i], VerdictOn(c, schedule, i))
  {
    if schedule != [] {
      var last := |schedule| - 1;
      var m, r := schedule[last], Run(c, schedule[..last]).value;
      RentEndsAsDecided(c, schedule[..last], r, i);
      if m.thread == i {
        ActDecides(r.shared, r.threads[i], m.choice, c'.shared, c'.threads[i], VerdictOn(c, schedule[..last], i));
      }
    }
  }

  /** Whether the `Rent` thread `i` is in was called as `RentAsync`. */
  function CalledAsync(c: Config, schedule: seq<Move>, i: nat): bool
    requires Run(c, schedule).Some? && i < |c.threads|
  {
    if schedule == [] then c.threads[i].isAsync
    else
      var last := |schedule| - 1;
      var m, r := schedule[last], Run(c, schedule[..last]).value;
      if m.thread == i && i < |r.threads| && r.threads[i].pc.Idle? && m.choice.CallRent? then m.choice.isAsync
      else CalledAsync(c, schedule[..last], i)
  }

  lemma ActKeepsAsync(g: Shared, f: Frame, ch: Choice, g': Shared, f': Frame)
    requires FrameInRange(f, |g.states|) && Act(g, f, ch) == Moved(g', f')
    ensures f'.isAsync == if f.pc.Idle? && ch.CallRent? then ch.isAsync else f.isAsync
  {
    assert Regular(g, f, Moved(g', f'));
    if f.pc.Idle? { IdleAsync(g, f, ch, g', f'); }
  }

  lemma IdleAsync(g: Shared, f: Frame, ch: Choice, g': Shared, f': Frame)
    requires At(g, f, Between) && ActIdle(g, f, ch) == Moved(g', f')
    ensures f'.isAsync == if ch.CallRent? then ch.isAsync else f.isAsync
  {
  }

  lemma {:induction false} AsyncIsKept(c: Config, schedule: seq<Move>, c': Config, i: nat)
    requires Run(c, schedule) == Some(c') && i < |c.threads|
    ensures i < |c'.threads| && c'.threads[i].isAsync == CalledAsync(c, schedule, i)
  {
    if schedule != [] {
      var last := |schedule| - 1;
      var m, r := schedule[last], Run(c, schedule[..last]).value;
      AsyncIsKept(c, schedule[..last], r, i);
      if m.thread == i { ActKeepsAsync(r.shared, r.threads[i], m.choice, c'.shared, c'.threads[i]); }
    }
  }

  /** A wait can be cancelled exactly if it is that of a `RentAsync`. */
  lemma OnlyAsyncIsCancelled(c: Config, schedule: seq<Move>, c': Config, i: nat)
    requires Run(c, schedule) == Some(c') && i < |c.threads|
    requires i < |c'.threads| && FrameInRange(c'.threads[i], |c'.shared.states|)
    ensures Step(c', i, Cancel).Some? <==> c'.threads[i].pc.Blocked? && CalledAsync(c, schedule, i)
  {
    AsyncIsKept(c, schedule, c', i);
    CancelIsWait(c'.shared, c'.threads[i]);
  }

  lemma CancelIsWait(g: Shared, f: Frame)
    requires FrameInRange(f, |g.states|)
    ensures Act(g, f, Cancel).Moved? <==> f.pc.Blocked? && f.isAsync
  {
  }

  // ---- looking before opening ----

  /** Whether the last look of the thread for an idle session found none: the bag was empty, or what
      it took was dead.  Entering a pool state begins anew. */
  function Looks(g: Shared, f: Frame, ch: Choice, before: bool): bool
    requires FrameInRange(f, |g.states|)
  {
    match f.pc
    case Idle | GetOrAdd => false
    case FastTake | Retake => g.states[f.state].bag == multiset{}
    case Validate => ch == Answer(false)
    case _ => before
  }

  function FoundNone(c: Config, schedule: seq<Move>, i: nat): bool
    requires Run(c, schedule).Some?
  {
    if schedule == [] then false
    else
      var last := |schedule| - 1;
      var m, r := schedule[last], Run(c, schedule[..last]).value;
      var before := FoundNone(c, schedule[..last], i);
      if m.thread == i && i < |r.threads| && FrameInRange(r.threads[i], |r.shared.states|) then
        Looks(r.shared, r.threads[i], m.choice, before)
      else before
  }

  /** The thread has gone on from its last look: to reserve a slot, to open, or to wait. */
  predicate GoneOn(pc: Pc) {
    || pc.EvictDispose? || pc.EvictDecrement? || pc.ReadCount? || pc.CompareExchange? || pc.Opening?
    || pc.FailDecrement? || pc.FailRelease? || pc.Register? || pc.CheckMember? || pc.Blocked? || pc.Cancelled?
    || pc.Woken? || pc.Recheck?
  }

  lemma ActLooksSearching(g: Shared, f: Frame, ch: Choice, g': Shared, f': Frame, before: bool)
    requires FrameInRange(f, |g.states|) && Act(g, f, ch) == Moved(g', f') && Searching(f) && (GoneOn(f.pc) ==> before)
    ensures GoneOn(f'.pc) ==> Looks(g, f, ch, before)
  {
  }

  lemma ActLooks(g: Shared, f: Frame, ch: Choice, g': Shared, f': Frame, before: bool)
    requires FrameInRange(f, |g.states|) && Act(g, f, ch) == Moved(g', f') && (GoneOn(f.pc) ==> before)
    ensures GoneOn(f'.pc) ==> Looks(g, f, ch, before)
  {
    if Searching(f) { ActLooksSearching(g, f, ch, g', f', before); }
  }

  /** A slot is reserved, a session opened, and a wait begun, only by a call that has looked into the bag
      of its pool state and has found it empty or a dead session. */
  lemma {:induction false} LooksBeforeOpening(c: Config, schedule: seq<Move>, c': Config, i: nat)
    requires Run(c, schedule) == Some(c') && i < |c.threads| && c.threads[i].pc.Idle?
    ensures i < |c'.threads| && (GoneOn(c'.threads[i].pc) ==> FoundNone(c, schedule, i))
  {
    if schedule != [] {
      var last := |schedule| - 1;
      var m, r := schedule[last], Run(c, schedule[..last]).value;
      LooksBeforeOpening(c, schedule[..last], r, i);
      if m.thread == i {
        ActLooks(r.shared, r.threads[i], m.choice, c'.shared, c'.threads[i], FoundNone(c, schedule[..last], i));
      }
    }
  }

  // ---- dead sessions ----

  /** Session `x` has been found dead. */
  ghost predicate FoundDead(c: Config, schedule: seq<Move>, x: SessionId)
    requires Run(c, schedule).Some?
  {
    schedule != [] &&
    var last := |schedule| - 1;
    var m, r := schedule[last], Run(c, schedule[..last]).value;
    || FoundDead(c, schedule[..last], x)
    || (m.thread < |r.threads| && r.threads[m.thread].pc.Validate? && r.threads[m.thread].session == x
        && m.choice == Answer(false))
  }

  /** Disposed of, or about to be. */
  predicate Dismissed(c: Config, x: SessionId) {
    || x in c.shared.disposed
    || exists k :: 0 <= k < |c.threads| && c.threads[k].pc.EvictDispose? && c.threads[k].session == x
  }

  lemma SearchDismisses(g: Shared, f: Frame, ch: Choice, g': Shared, f': Frame)
    requires FrameInRange(f, |g.states|) && Act(g, f, ch) == Moved(g', f') && Searching(f)
    ensures g.disposed <= g'.disposed
    ensures f.pc.EvictDispose? ==> f.session in g'.disposed
    ensures f.pc.Validate? && ch == Answer(false) ==> f'.pc.EvictDispose? && f'.session == f.session
  {
  }

  lemma ActDismisses(g: Shared, f: Frame, ch: Choice, g': Shared, f': Frame)
    requires FrameInRange(f, |g.states|) && Act(g, f, ch) == Moved(g', f')
    ensures g.disposed <= g'.disposed
    ensures f.pc.EvictDispose? ==> f.session in g'.disposed
    ensures f.pc.Validate? && ch == Answer(false) ==> f'.pc.EvictDispose? && f'.session == f.session
  {
    if Searching(f) { SearchDismisses(g, f, ch, g', f'); }
  }

  lemma StepDismisses(c: Config, m: Move, c': Config, x: SessionId)
    requires Step(c, m.thread, m.choice) == Some(c')
    requires Dismissed(c, x) || (c.threads[m.thread].pc.Validate? && c.threads[m.thread].session == x && m.choice == Answer(false))
    ensures Dismissed(c', x)
  {
    ActDismisses(c.shared, c.threads[m.thread], m.choice, c'.shared, c'.threads[m.thread]);
    if x !in c'.shared.disposed {
      if Dismissed(c, x) {
        var k :| 0 <= k < |c.threads| && c.threads[k].pc.EvictDispose? && c.threads[k].session == x;
        assert k != m.thread && c'.threads[k] == c.threads[k];
      } else {
        assert c'.threads[m.thread].pc.EvictDispose? && c'.threads[m.thread].session == x;
      }
    }
  }

  lemma {:induction false} DeadAreDismissed(c: Config, schedule: seq<Move>, c': Config, x: SessionId)
    requires Run(c, schedule) == Some(c') && FoundDead(c, schedule, x)
    ensures Dismissed(c', x)
  {
    var last := |schedule| - 1;
    var r := Run(c, schedule[..last]).value;
    if FoundDead(c, schedule[..last], x) { DeadAreDismissed(c, schedule[..last], r, x); }
    StepDismisses(r, schedule[last], c', x);
  }

  /** A session found dead is disposed of and never handed out again: in every later state it is
      disposed, or in the hands of the thread that is about to do so, and nowhere else. */
  lemma DeadAreGone(threads: nat, maxPoolSize: nat, schedule: seq<Move>, c: Config, x: SessionId)
    requires maxPoolSize >= 1 && Run(Init(threads, maxPoolSize), schedule) == Some(c)
    requires FoundDead(Init(threads, maxPoolSize), schedule, x)
    ensures Dismissed(c, x) && x !in c.shared.rented
    ensures forall s: StateId :: s < |c.shared.states| ==> x !in c.shared.states[s].bag
    ensures forall k: nat :: k < |c.threads| && Holds(c.threads[k].pc) && c.threads[k].session == x ==> c.threads[k].pc.EvictDispose?
  {
    DeadAreDismissed(Init(threads, maxPoolSize), schedule, c, x);
    assert Reachable(c);
    if x in c.shared.disposed {
      DisposedIsNowhere(c, x);
    } else {
      var k: nat :| k < |c.threads| && c.threads[k].pc.EvictDispose? && c.threads[k].session == x;
      HandedOutExclusively(c, k);
    }
  }
}
