/** The protocol refines the bounded pool: on the live pool state every step of every thread is
    either invisible or one atomic step of `BoundedPool`. */
module PoolRefinement {
  import opened Options
  import opened Counting
  import opened PoolModel
  import opened PoolOwnership
  import opened PoolCapacity
  import opened BoundedPool
  import PoolWakeup

  function HeldSet(f: Frame, s: StateId): multiset<SessionId> {
    if HeldAt(f, s) then multiset{f.session} else multiset{}
  }

  function Union(ms: seq<multiset<SessionId>>): multiset<SessionId> {
    if ms == [] then multiset{} else ms[0] + Union(ms[1..])
  }

  function HeldSets(threads: seq<Frame>, s: StateId): (ms: seq<multiset<SessionId>>)
    ensures |ms| == |threads| && forall k :: 0 <= k < |ms| ==> ms[k] == HeldSet(threads[k], s)
  {
    seq(|threads|, k requires 0 <= k < |threads| => HeldSet(threads[k], s))
  }

  function Slots(threads: seq<Frame>, s: StateId): (ns: seq<nat>)
    ensures |ns| == |threads| && forall k :: 0 <= k < |ns| ==> ns[k] == One(ReservedAt(threads[k], s))
  {
    seq(|threads|, k requires 0 <= k < |threads| => One(ReservedAt(threads[k], s)))
  }

  /** Pool state `s` as a bounded pool. */
  function Abs(c: Config, s: StateId): Pool
    requires s < |c.shared.states|
  {
    Pool(c.shared.states[s].bag, Union(HeldSets(c.threads, s)) + multiset(RentedFrom(c.shared, s)), Sum(Slots(c.threads, s)))
  }

  /** The same from one frame's point of view: the others hold `held` and reserve `slots`. */
  function View(g: Shared, f: Frame, s: StateId, held: multiset<SessionId>, slots: nat): Pool
    requires s < |g.states|
  {
    Pool(g.states[s].bag, held + HeldSet(f, s) + multiset(RentedFrom(g, s)), slots + One(ReservedAt(f, s)))
  }

  /** Both configurations are about the same live pool state, and no foreign session arrives. */
  ghost predicate Live(g: Shared, f: Frame, g': Shared, s: StateId) {
    && s < |g.states| && s < |g'.states|
    && g.active == g'.active == Some(s) && g'.states[s].foreign == g.states[s].foreign
    && (f.state == s ==> !f.pc.Drain? && !f.pc.DrainDispose?)
  }

  // ---- what one step does to the pool state ----

  datatype Effect =
    | Quiet
    | PickUp(x: SessionId)     // from a connection into `Return`
    | HandOver(x: SessionId)   // out of `Rent` to a connection
    | Visible(event: Event)

  /** The frame holds session `x` of `s`, or none; it keeps a slot of `s`, or not. */
  predicate Carries(f: Frame, s: StateId, held: Option<SessionId>, slot: bool) {
    && (held.Some? ==> HeldAt(f, s) && f.session == held.value)
    && (held.None? ==> !HeldAt(f, s))
    && (ReservedAt(f, s) <==> slot)
  }

  ghost predicate SameShared(g: Shared, g': Shared, s: StateId)
    requires s < |g.states| && s < |g'.states|
  {
    g'.states[s].bag == g.states[s].bag && g'.rented == g.rented
  }

  ghost predicate Has(e: Effect, g: Shared, f: Frame, g': Shared, f': Frame, s: StateId)
    requires s < |g.states| && s < |g'.states|
  {
    match e
    case Quiet =>
      && g'.states[s].bag == g.states[s].bag && RentedFrom(g', s) == RentedFrom(g, s)
      && (HeldAt(f', s) <==> HeldAt(f, s)) && (HeldAt(f, s) ==> f'.session == f.session)
      && (ReservedAt(f', s) <==> ReservedAt(f, s))
    case PickUp(x) =>
      && Carries(f, s, None, false) && Carries(f', s, Some(x), false)
      && g'.states[s].bag == g.states[s].bag && x in RentedFrom(g, s) && RentedFrom(g', s) == RentedFrom(g, s) - {x}
    case HandOver(x) =>
      && Carries(f, s, Some(x), false) && Carries(f', s, None, false)
      && g'.states[s].bag == g.states[s].bag && x !in RentedFrom(g, s) && RentedFrom(g', s) == RentedFrom(g, s) + {x}
    case Visible(TakeIdle(x)) =>
      && Carries(f, s, None, false) && Carries(f', s, Some(x), false) && g'.rented == g.rented
      && x in g.states[s].bag && g'.states[s].bag == g.states[s].bag - multiset{x}
    case Visible(Reserve) =>
      && Carries(f, s, None, false) && Carries(f', s, None, true) && SameShared(g, g', s)
      && g.states[s].count < g.maxPoolSize
    case Visible(Fill(x)) =>
      && Carries(f, s, None, true) && Carries(f', s, Some(x), false) && SameShared(g, g', s) && x == g.next
    case Visible(FreeSlot) =>
      && Carries(f, s, None, true) && Carries(f', s, None, false) && SameShared(g, g', s)
    case Visible(GiveBack(x)) =>
      && Carries(f, s, Some(x), false) && Carries(f', s, None, false) && g'.rented == g.rented
      && g'.states[s].bag == g.states[s].bag + multiset{x}
    case Visible(Evict(x)) =>
      && Carries(f, s, Some(x), false) && Carries(f', s, None, true) && SameShared(g, g', s)
  }

  ghost predicate HasSome(g: Shared, f: Frame, g': Shared, f': Frame, s: StateId)
    requires s < |g.states| && s < |g'.states|
  {
    exists e: Effect :: Has(e, g, f, g', f', s)
  }

  lemma IdleEffect(g: Shared, f: Frame, ch: Choice, g': Shared, f': Frame, s: StateId)
    requires At(g, f, Between)
    requires ActIdle(g, f, ch) == Moved(g', f') && Live(g, f, g', s)
    ensures HasSome(g, f, g', f', s)
  {
    var e := if ch.CallReturn? && f'.state == s then PickUp(ch.x) else Quiet;
    assert Has(e, g, f, g', f', s);
  }

  lemma EnterEffect(g: Shared, f: Frame, ch: Choice, g': Shared, f': Frame, s: StateId)
    requires At(g, f, Entering)
    requires ActEnter(g, f, ch) == Moved(g', f') && Live(g, f, g', s)
    ensures HasSome(g, f, g', f', s)
  {
    var e := Quiet;
    RentedSame(g, g', s);
    assert Has(e, g, f, g', f', s);
  }

  lemma TryEffect(g: Shared, f: Frame, ch: Choice, g': Shared, f': Frame, s: StateId)
    requires At(g, f, Trying)
    requires ActTry(g, f, ch) == Moved(g', f') && Live(g, f, g', s)
    ensures HasSome(g, f, g', f', s)
  {
    RentedSame(g, g', s);
    if f'.pc.Validate? && f.state == s {
      TakesIdle(g, f, ch, g', f');
      assert Has(Visible(TakeIdle(f'.session)), g, f, g', f', s);
    } else {
      assert Has(Quiet, g, f, g', f', s);
    }
  }

  lemma TakesIdle(g: Shared, f: Frame, ch: Choice, g': Shared, f': Frame)
    requires At(g, f, Trying) && ActTry(g, f, ch) == Moved(g', f') && f'.pc.Validate?
    ensures f'.session in g.states[f.state].bag && f'.state == f.state && g'.rented == g.rented
    ensures f.state < |g'.states| && g'.states[f.state].bag == g.states[f.state].bag - multiset{f'.session}
  {
  }

  lemma ValidateEffect(g: Shared, f: Frame, ch: Choice, g': Shared, f': Frame, s: StateId)
    requires At(g, f, Validating)
    requires ActValidate(g, f, ch) == Moved(g', f') && Live(g, f, g', s)
    ensures HasSome(g, f, g', f', s)
  {
    var e :=
      if f.state != s then Quiet
      else if f.pc.EvictDispose? then Visible(Evict(f.session))
      else if f.pc.EvictDecrement? then Visible(FreeSlot) else Quiet;
    RentedSame(g, g', s);
    assert Has(e, g, f, g', f', s);
  }

  lemma ReserveEffect(g: Shared, f: Frame, ch: Choice, g': Shared, f': Frame, s: StateId)
    requires At(g, f, Reserving)
    requires ActReserve(g, f, ch) == Moved(g', f') && Live(g, f, g', s)
    requires f.pc.CompareExchange? ==> f.number < g.maxPoolSize
    ensures HasSome(g, f, g', f', s)
  {
    var e := if f'.pc.Opening? && f.state == s then Visible(Reserve) else Quiet;
    RentedSame(g, g', s);
    assert Has(e, g, f, g', f', s);
  }

  lemma OpenEffect(g: Shared, f: Frame, ch: Choice, g': Shared, f': Frame, s: StateId)
    requires At(g, f, OpeningUp)
    requires ActOpen(g, f, ch) == Moved(g', f') && Live(g, f, g', s)
    ensures HasSome(g, f, g', f', s)
  {
    var e :=
      if f.state != s then Quiet
      else if f'.pc.Deliver? then Visible(Fill(g.next))
      else if f.pc.FailDecrement? then Visible(FreeSlot) else Quiet;
    RentedSame(g, g', s);
    assert Has(e, g, f, g', f', s);
  }

  lemma RegisterEffect(g: Shared, f: Frame, ch: Choice, g': Shared, f': Frame, s: StateId)
    requires At(g, f, Registering)
    requires ActRegister(g, f, ch) == Moved(g', f') && Live(g, f, g', s)
    ensures HasSome(g, f, g', f', s)
  {
    var e := Quiet;
    RentedSame(g, g', s);
    assert Has(e, g, f, g', f', s);
  }

  lemma WakeEffect(g: Shared, f: Frame, ch: Choice, g': Shared, f': Frame, s: StateId)
    requires At(g, f, Waking)
    requires ActWake(g, f, ch) == Moved(g', f') && Live(g, f, g', s)
    ensures HasSome(g, f, g', f', s)
  {
    var e := Quiet;
    RentedSame(g, g', s);
    assert Has(e, g, f, g', f', s);
  }

  lemma LeaveEffect(g: Shared, f: Frame, ch: Choice, g': Shared, f': Frame, s: StateId)
    requires At(g, f, Leaving)
    requires ActLeave(g, f, ch) == Moved(g', f') && Live(g, f, g', s)
    requires f.pc.Deliver? ==> f.session !in g.rented
    ensures HasSome(g, f, g', f', s)
  {
    var e := if f.pc.Deliver? && f'.pc.Idle? && f.state == s then HandOver(f.session) else Quiet;
    assert Has(e, g, f, g', f', s);
  }

  lemma LookupEffect(g: Shared, f: Frame, ch: Choice, g': Shared, f': Frame, s: StateId)
    requires At(g, f, LookingUp)
    requires ActLookup(g, f, ch) == Moved(g', f') && Live(g, f, g', s)
    ensures HasSome(g, f, g', f', s)
  {
    var e := Quiet;
    RentedSame(g, g', s);
    assert Has(e, g, f, g', f', s);
  }

  lemma ReturnEffect(g: Shared, f: Frame, ch: Choice, g': Shared, f': Frame, s: StateId)
    requires At(g, f, Returning)
    requires ActReturn(g, f, ch) == Moved(g', f') && Live(g, f, g', s)
    ensures HasSome(g, f, g', f', s)
  {
    var e := if f.pc.Add? && f.state == s then Visible(GiveBack(f.session)) else Quiet;
    RentedSame(g, g', s);
    assert Has(e, g, f, g', f', s);
  }

  lemma DrainEffect(g: Shared, f: Frame, ch: Choice, g': Shared, f': Frame, s: StateId)
    requires At(g, f, Draining)
    requires ActDrain(g, f, ch) == Moved(g', f') && Live(g, f, g', s)
    ensures HasSome(g, f, g', f', s)
  {
    var e := Quiet;
    RentedSame(g, g', s);
    assert Has(e, g, f, g', f', s);
  }

  lemma DismissEffect(g: Shared, f: Frame, ch: Choice, g': Shared, f': Frame, s: StateId)
    requires At(g, f, Dismissing)
    requires ActDismiss(g, f, ch) == Moved(g', f') && Live(g, f, g', s)
    ensures HasSome(g, f, g', f', s)
  {
    var e := Quiet;
    RentedSame(g, g', s);
    assert Has(e, g, f, g', f', s);
  }

  lemma ActEffect(g: Shared, f: Frame, ch: Choice, g': Shared, f': Frame, s: StateId)
    requires FrameInRange(f, |g.states|) && Act(g, f, ch) == Moved(g', f') && Live(g, f, g', s)
    requires f.pc.Deliver? ==> f.session !in g.rented
    requires f.pc.CompareExchange? ==> f.number < g.maxPoolSize
    ensures HasSome(g, f, g', f', s)
  {
    match PhaseOf(f.pc) {
      case Between => IdleEffect(g, f, ch, g', f', s);
      case Entering => EnterEffect(g, f, ch, g', f', s);
      case Trying => TryEffect(g, f, ch, g', f', s);
      case Validating => ValidateEffect(g, f, ch, g', f', s);
      case Reserving => ReserveEffect(g, f, ch, g', f', s);
      case OpeningUp => OpenEffect(g, f, ch, g', f', s);
      case Registering => RegisterEffect(g, f, ch, g', f', s);
      case Waking => WakeEffect(g, f, ch, g', f', s);
      case Leaving => LeaveEffect(g, f, ch, g', f', s);
      case LookingUp => LookupEffect(g, f, ch, g', f', s);
      case Returning => ReturnEffect(g, f, ch, g', f', s);
      case Draining => DrainEffect(g, f, ch, g', f', s);
      case Dismissing => DismissEffect(g, f, ch, g', f', s);
    }
  }

  // ---- the refinement ----

  lemma SetGrows(a: set<SessionId>, x: SessionId)
    requires x !in a
    ensures multiset(a + {x}) == multiset(a) + multiset{x}
  {
  }

  lemma QuietRefines(g: Shared, f: Frame, g': Shared, f': Frame, s: StateId, held: multiset<SessionId>, slots: nat)
    requires s < |g.states| && s < |g'.states| && Has(Quiet, g, f, g', f', s)
    ensures View(g', f', s, held, slots) == View(g, f, s, held, slots)
  {
    assert HeldSet(f', s) == HeldSet(f, s);
  }

  /** Between a thread and a connection a session stays in use. */
  lemma TransferRefines(g: Shared, f: Frame, g': Shared, f': Frame, s: StateId, held: multiset<SessionId>,
      slots: nat, x: SessionId)
    requires s < |g.states| && s < |g'.states| && Has(HandOver(x), g, f, g', f', s)
    ensures View(g', f', s, held, slots) == View(g, f, s, held, slots)
  {
    SetGrows(RentedFrom(g, s), x);
    assert HeldSet(f, s) == multiset{x} && HeldSet(f', s) == multiset{};
  }

  lemma HiddenRefines(e: Effect, g: Shared, f: Frame, g': Shared, f': Frame, s: StateId, held: multiset<SessionId>,
      slots: nat)
    requires s < |g.states| && s < |g'.states| && Has(e, g, f, g', f', s) && !e.Visible?
    ensures View(g', f', s, held, slots) == View(g, f, s, held, slots)
  {
    match e {
      case Quiet => QuietRefines(g, f, g', f', s, held, slots);
      case HandOver(x) => TransferRefines(g, f, g', f', s, held, slots, x);
      case PickUp(x) =>
        assert RentedFrom(g, s) == RentedFrom(g', s) + {x};
        TransferRefines(g', f', g, f, s, held, slots, x);
      case Visible(_) =>
    }
  }

  /** A session comes to or leaves the frame: the sessions in use change by that one. */
  lemma BusyMoves(g: Shared, f: Frame, g': Shared, f': Frame, s: StateId, held: multiset<SessionId>, slots: nat,
      x: SessionId)
    requires s < |g.states| && s < |g'.states| && g'.rented == g.rented && !HeldAt(f, s) && HeldAt(f', s)
      && f'.session == x
    ensures View(g', f', s, held, slots).busy == View(g, f, s, held, slots).busy + multiset{x}
    ensures View(g, f, s, held, slots).busy == View(g', f', s, held, slots).busy - multiset{x}
    ensures x in View(g', f', s, held, slots).busy
  {
    RentedSame(g, g', s);
    assert HeldSet(f, s) == multiset{} && HeldSet(f', s) == multiset{x};
  }

  lemma BusyStays(g: Shared, f: Frame, g': Shared, f': Frame, s: StateId, held: multiset<SessionId>, slots: nat)
    requires s < |g.states| && s < |g'.states| && g'.rented == g.rented && !HeldAt(f, s) && !HeldAt(f', s)
    ensures View(g', f', s, held, slots).busy == View(g, f, s, held, slots).busy
  {
    RentedSame(g, g', s);
  }

  /** A session comes into use. */
  lemma ComingRefines(e: Event, g: Shared, f: Frame, g': Shared, f': Frame, s: StateId, held: multiset<SessionId>,
      slots: nat, x: SessionId)
    requires s < |g.states| && s < |g'.states| && Has(Visible(e), g, f, g', f', s) && (e == TakeIdle(x) || e == Fill(x))
    ensures Next(View(g, f, s, held, slots), e, View(g', f', s, held, slots), g.maxPoolSize)
  {
    BusyMoves(g, f, g', f', s, held, slots, x);
  }

  /** A session goes out of use. */
  lemma GoingRefines(e: Event, g: Shared, f: Frame, g': Shared, f': Frame, s: StateId, held: multiset<SessionId>,
      slots: nat, x: SessionId)
    requires s < |g.states| && s < |g'.states| && Has(Visible(e), g, f, g', f', s) && (e == GiveBack(x) || e == Evict(x))
    ensures Next(View(g, f, s, held, slots), e, View(g', f', s, held, slots), g.maxPoolSize)
  {
    BusyMoves(g', f', g, f, s, held, slots, x);
  }

  lemma SlotRefines(e: Event, g: Shared, f: Frame, g': Shared, f': Frame, s: StateId, held: multiset<SessionId>,
      slots: nat)
    requires s < |g.states| && s < |g'.states| && Has(Visible(e), g, f, g', f', s) && (e.Reserve? || e.FreeSlot?)
    requires View(g, f, s, held, slots).Size() == g.states[s].count
    ensures Next(View(g, f, s, held, slots), e, View(g', f', s, held, slots), g.maxPoolSize)
  {
    BusyStays(g, f, g', f', s, held, slots);
  }

  lemma EventRefines(e: Event, g: Shared, f: Frame, g': Shared, f': Frame, s: StateId, held: multiset<SessionId>,
      slots: nat)
    requires s < |g.states| && s < |g'.states| && Has(Visible(e), g, f, g', f', s)
    requires View(g, f, s, held, slots).Size() == g.states[s].count
    ensures Next(View(g, f, s, held, slots), e, View(g', f', s, held, slots), g.maxPoolSize)
  {
    match e {
      case TakeIdle(x) => ComingRefines(e, g, f, g', f', s, held, slots, x);
      case Fill(x) => ComingRefines(e, g, f, g', f', s, held, slots, x);
      case GiveBack(x) => GoingRefines(e, g, f, g', f', s, held, slots, x);
      case Evict(x) => GoingRefines(e, g, f, g', f', s, held, slots, x);
      case _ => SlotRefines(e, g, f, g', f', s, held, slots);
    }
  }

  lemma {:induction false} UnionSplit(ms: seq<multiset<SessionId>>, i: nat)
    requires i < |ms|
    ensures Union(ms) == Union(ms[i := multiset{}]) + ms[i]
  {
    if i == 0 {
      assert ms[0 := multiset{}][1..] == ms[1..];
    } else {
      assert ms[i := multiset{}][1..] == ms[1..][i - 1 := multiset{}];
      UnionSplit(ms[1..], i - 1);
    }
  }

  lemma {:induction false} UnionSize(ms: seq<multiset<SessionId>>, ns: seq<nat>)
    requires |ms| == |ns| && forall k :: 0 <= k < |ms| ==> |ms[k]| == ns[k]
    ensures |Union(ms)| == Sum(ns)
  {
    if ms != [] { UnionSize(ms[1..], ns[1..]); }
  }

  lemma {:induction false} SumOfSums(ns: seq<nat>, ms: seq<nat>, ks: seq<nat>)
    requires |ns| == |ms| == |ks| && forall k :: 0 <= k < |ns| ==> ks[k] == ns[k] + ms[k]
    ensures Sum(ks) == Sum(ns) + Sum(ms)
  {
    if ns != [] { SumOfSums(ns[1..], ms[1..], ks[1..]); }
  }

  /** The bounded pool takes up exactly the room that `Count` books. */
  lemma AbsSize(c: Config, s: StateId)
    requires s < |c.shared.states|
    ensures Abs(c, s).Size() == Occupancy(c, s)
  {
    var ns := seq(|c.threads|, k requires 0 <= k < |c.threads| => One(HeldAt(c.threads[k], s)));
    UnionSize(HeldSets(c.threads, s), ns);
    SumOfSums(ns, Slots(c.threads, s), Occupants(c.threads, s));
  }

  lemma UnionView(c: Config, i: nat, f: Frame, s: StateId)
    requires i < |c.threads|
    ensures Union(HeldSets(c.threads[i := f], s)) == Union(HeldSets(c.threads[i := IDLE_FRAME], s)) + HeldSet(f, s)
  {
    UnionSplit(HeldSets(c.threads[i := f], s), i);
    assert HeldSets(c.threads[i := f], s)[i := multiset{}] == HeldSets(c.threads[i := IDLE_FRAME], s);
  }

  lemma SlotsView(c: Config, i: nat, f: Frame, s: StateId)
    requires i < |c.threads|
    ensures Sum(Slots(c.threads[i := f], s)) == Sum(Slots(c.threads[i := IDLE_FRAME], s)) + One(ReservedAt(f, s))
  {
    var idle := c.threads[i := IDLE_FRAME];
    SumUpdate(Slots(idle, s), i, One(ReservedAt(f, s)));
    assert Slots(c.threads[i := f], s) == Slots(idle, s)[i := One(ReservedAt(f, s))];
  }

  lemma AbsView(c: Config, i: nat, g: Shared, f: Frame, s: StateId)
    requires i < |c.threads| && s < |g.states|
    ensures Abs(Config(g, c.threads[i := f]), s)
              == View(g, f, s, Union(HeldSets(c.threads[i := IDLE_FRAME], s)), Sum(Slots(c.threads[i := IDLE_FRAME], s)))
  {
    UnionView(c, i, f, s);
    SlotsView(c, i, f, s);
  }

  lemma FrameRefines(g: Shared, f: Frame, ch: Choice, g': Shared, f': Frame, s: StateId, held: multiset<SessionId>,
      slots: nat)
    requires FrameInRange(f, |g.states|) && Act(g, f, ch) == Moved(g', f') && Live(g, f, g', s)
    requires f.pc.Deliver? ==> f.session !in g.rented
    requires f.pc.CompareExchange? ==> f.number < g.maxPoolSize
    requires View(g, f, s, held, slots).Size() == g.states[s].count
    ensures NextOrStutter(View(g, f, s, held, slots), View(g', f', s, held, slots), g.maxPoolSize)
  {
    ActEffect(g, f, ch, g', f', s);
    var e :| Has(e, g, f, g', f', s);
    if e.Visible? {
      EventRefines(e.event, g, f, g', f', s, held, slots);
    } else {
      HiddenRefines(e, g, f, g', f', s, held, slots);
    }
  }

  /** Refinement: while a pool state is live and holds no foreign session, every step of every
      thread is invisible there or is one atomic step of the bounded pool. */
  lemma StepRefines(c: Config, i: nat, ch: Choice, c': Config, s: StateId)
    requires Reachable(c) && Step(c, i, ch) == Some(c')
    requires c.shared.active == c'.shared.active == Some(s)
    requires s < |c.shared.states| && s < |c'.shared.states|
      && c'.shared.states[s].foreign == c.shared.states[s].foreign == 0
    ensures NextOrStutter(Abs(c, s), Abs(c', s), c.shared.maxPoolSize)
    ensures Abs(c, s).Size() <= c.shared.maxPoolSize
  {
    var f, f' := c.threads[i], c'.threads[i];
    ReachablePool(c);
    CountExact(c, s);
    AbsSize(c, s);
    AbsView(c, i, c.shared, f, s);
    AbsView(c, i, c'.shared, f', s);
    assert c.threads[i := f] == c.threads && c'.threads == c.threads[i := f'];
    if Holds(f.pc) { DeliversUnrented(c, i); }
    if f.state == s { NotDrainingLive(c, i); }
    assert PoolWakeup.ReadFree(f, c.shared.maxPoolSize);
    FrameRefines(c.shared, f, ch, c'.shared, f', s,
                 Union(HeldSets(c.threads[i := IDLE_FRAME], s)), Sum(Slots(c.threads[i := IDLE_FRAME], s)));
  }
}
