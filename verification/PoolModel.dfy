/** The connection pool of one connection string as a transition system.

    Every step is one atomic operation of one thread: a dictionary lookup, a bag operation,
    an interlocked operation on `Count` or `Waiters`, a semaphore operation.  Any number of
    threads interleave, each of them inside `Rent`, `RentAsync`, `Return` or `Clear`.
*/
module PoolModel {
  import opened Options

  type SessionId = nat
  type StateId = nat

  /** A `PoolState`.  `departed` and `foreign` are history: no step reads them.
      `departed` counts the sessions that left this pool state for good without `Count` being
      lowered, `foreign` the sessions given back to it although it never counted them. */
  datatype PoolState = PoolState(
    bag: multiset<SessionId>,
    count: int,
    permits: nat,
    waiters: int,
    departed: nat,
    foreign: nat)

  const EMPTY_POOL := PoolState(multiset{}, 0, 0, 0, 0, 0)

  /** The operation a thread performs next. */
  datatype Pc =
    | Idle
      // Rent and RentAsync
    | GetOrAdd | FastTake | Validate | EvictDispose | EvictDecrement
    | ReadCount | Register | CheckMember | Blocked | Cancelled | Woken | Recheck | Retake
    | CompareExchange | Opening | FailDecrement | FailRelease | Deliver | Throw
      // Return
    | Lookup | Add | Release | ReturnDispose
      // Clear
    | Remove | Drain | DrainDispose | ReadWaiters | Broadcast

  /** A thread: its position, its local variables, and the `finally` blocks it still owes.
      `state` and `session` are the source's variables of those names (in `Return`, before the
      lookup, `state` is the pool state the session was rented from), `number` its `current` or
      `waiters`.  A `Rent` that restarts from inside the `try` lowers the old `Waiters` only
      after the nested call returns: those pool states are `pending`. */
  datatype Frame = Frame(
    pc: Pc,
    state: StateId,
    session: SessionId,
    number: int,
    pending: seq<StateId>,
    isAsync: bool)

  const IDLE_FRAME := Frame(Idle, 0, 0, 0, [], false)

  /** What the threads share.  `active` is the dictionary entry; `rented` maps each session handed
      out to the pool state it came from; sessions are numbered in order of creation below `next`. */
  datatype Shared = Shared(
    states: seq<PoolState>,
    active: Option<StateId>,
    rented: map<SessionId, StateId>,
    disposed: set<SessionId>,
    next: SessionId,
    maxPoolSize: nat)

  datatype Config = Config(shared: Shared, threads: seq<Frame>)

  /** What the environment decides: which call an idle thread makes, which idle session a bag
      gives out, whether a session is valid or an open succeeds, whether a wait is cancelled. */
  datatype Choice =
    | CallRent(isAsync: bool)
    | CallReturn(x: SessionId)
    | CallClear
    | Pick(x: SessionId)
    | Answer(ok: bool)
    | Cancel
    | Go

  /** What one atomic step of one thread does, or that it is not enabled. */
  datatype Outcome = Disabled | Moved(shared: Shared, frame: Frame)

  function Init(threads: nat, maxPoolSize: nat): Config {
    Config(Shared([], None, map[], {}, 0, maxPoolSize), seq(threads, _ => IDLE_FRAME))
  }

  /** Whether the next operation of a thread touches the pool state it holds. */
  predicate UsesState(pc: Pc) {
    !(pc.Idle? || pc.GetOrAdd? || pc.Throw? || pc.ReturnDispose? || pc.Remove?)
  }

  predicate FrameInRange(f: Frame, n: nat) {
    && (UsesState(f.pc) ==> f.state < n)
    && forall k :: 0 <= k < |f.pending| ==> f.pending[k] < n
  }

  function Update(g: Shared, s: StateId, p: PoolState): Shared
    requires s < |g.states|
  {
    g.(states := g.states[s := p])
  }

  function AddCount(g: Shared, s: StateId, n: int): Shared
    requires s < |g.states|
  {
    Update(g, s, g.states[s].(count := g.states[s].count + n))
  }

  function AddWaiters(g: Shared, s: StateId, n: int): Shared
    requires s < |g.states|
  {
    Update(g, s, g.states[s].(waiters := g.states[s].waiters + n))
  }

  function AddPermits(g: Shared, s: StateId, n: nat): Shared
    requires s < |g.states|
  {
    Update(g, s, g.states[s].(permits := g.states[s].permits + n))
  }

  function Dispose(g: Shared, x: SessionId): Shared {
    g.(disposed := g.disposed + {x})
  }

  /** A deterministic step: the environment has nothing to decide. */
  function Proceed(ch: Choice, g: Shared, f: Frame, pc: Pc): Outcome {
    if ch == Go then Moved(g, f.(pc := pc)) else Disabled
  }

  /** A step on whose success the environment decides. */
  function Ask(ch: Choice, yes: Outcome, no: Outcome): Outcome {
    if ch == Answer(true) then yes else if ch == Answer(false) then no else Disabled
  }

  predicate SharedInRange(g: Shared) {
    && (g.active.Some? ==> g.active.value < |g.states|)
    && forall x :: x in g.rented ==> g.rented[x] < |g.states|
  }

  /** What every step respects: it names only pool states that exist, adds at most one; a
      thread that goes on to reserve a slot did not read a full pool; only a fresh pool state
      becomes active, and only on the active one does a thread start to wait; only a restart from inside
      the `try` adds to what a thread owes; and how it was called stays as it was. */
  ghost predicate Regular(g: Shared, f: Frame, o: Outcome) {
    o.Moved? ==>
      && o.shared.maxPoolSize == g.maxPoolSize
      && (|o.shared.states| == |g.states|
          || (o.shared.states == g.states + [EMPTY_POOL] && o.shared.active == Some(|g.states|)
              && o.frame.pc.FastTake? && o.frame.state == |g.states| && o.shared.rented == g.rented))
      && (SharedInRange(g) ==> SharedInRange(o.shared) && FrameInRange(o.frame, |o.shared.states|))
      && (o.frame.pc.CompareExchange? ==> o.frame.number < g.maxPoolSize)
      && (o.shared.active == g.active || o.shared.active == None || o.shared.active == Some(|g.states|))
      && (o.frame.pc.Blocked? ==> o.frame.state == f.state && (f.pc.Blocked? || g.active == Some(f.state)))
      && (!f.pc.Idle? ==> o.frame.isAsync == f.isAsync)
      && (PhaseOf(f.pc) != Leaving ==>
            o.frame.pending == if f.pc.CheckMember? && o.frame.pc.GetOrAdd? then f.pending + [f.state] else f.pending)
  }

  /** An idle thread makes a call.  A connection gives back a session it holds. */
  function ActIdle(g: Shared, f: Frame, ch: Choice): (o: Outcome)
    requires FrameInRange(f, |g.states|) && f.pc.Idle?
    ensures Regular(g, f, o)
  {
    match ch
    case CallRent(a) => Moved(g, f.(pc := GetOrAdd, isAsync := a))
    case CallReturn(x) =>
      if x in g.rented then
        Moved(g.(rented := g.rented - {x}), f.(pc := Lookup, session := x, state := g.rented[x]))
      else Disabled
    case CallClear => Moved(g, f.(pc := Remove))
    case _ => Disabled
  }

  /** The two operations that change the dictionary: `GetOrAdd` in `Rent`, `TryRemove` in `Clear`. */
  function ActEnter(g: Shared, f: Frame, ch: Choice): (o: Outcome)
    requires FrameInRange(f, |g.states|)
    ensures Regular(g, f, o)
  {
    match f.pc
    case GetOrAdd =>
      if g.active.Some? then Proceed(ch, g, f.(state := g.active.value), FastTake)
      else
        Proceed(ch, g.(states := g.states + [EMPTY_POOL], active := Some(|g.states|)), f.(state := |g.states|), FastTake)
    case Remove =>
      if g.active.Some? then Proceed(ch, g.(active := None), f.(state := g.active.value), Drain)
      else Proceed(ch, g, f, Idle)
    case _ => Disabled
  }

  /** `TryTake`: any element of a nonempty bag; it fails only on an empty one. */
  function TryTake(g: Shared, f: Frame, ch: Choice, onTaken: Pc, onEmpty: Pc): Outcome
    requires f.state < |g.states|
  {
    var p := g.states[f.state];
    if ch.Pick? && ch.x in p.bag then
      Moved(Update(g, f.state, p.(bag := p.bag - multiset{ch.x})), f.(pc := onTaken, session := ch.x))
    else if p.bag == multiset{} then Proceed(ch, g, f, onEmpty)
    else Disabled
  }

  /** `Rent`: looking for an idle session, on entry and after a wait. */
  function ActTry(g: Shared, f: Frame, ch: Choice): (o: Outcome)
    requires FrameInRange(f, |g.states|)
    ensures Regular(g, f, o)
  {
    match f.pc
    case FastTake | Retake => TryTake(g, f, ch, Validate, ReadCount)
    case _ => Disabled
  }

  /** `Rent`: validating the session taken; a dead one is disposed and its slot freed. */
  function ActValidate(g: Shared, f: Frame, ch: Choice): (o: Outcome)
    requires FrameInRange(f, |g.states|)
    ensures Regular(g, f, o)
  {
    match f.pc
    case Validate => Ask(ch, Moved(g, f.(pc := Deliver)), Moved(g, f.(pc := EvictDispose)))
    case EvictDispose => Proceed(ch, Dispose(g, f.session), f, EvictDecrement)
    case EvictDecrement => Proceed(ch, AddCount(g, f.state, -1), f, ReadCount)
    case _ => Disabled
  }

  /** `Rent`: reserving a slot below the maximum. */
  function ActReserve(g: Shared, f: Frame, ch: Choice): (o: Outcome)
    requires FrameInRange(f, |g.states|)
    ensures Regular(g, f, o)
  {
    match f.pc
    case ReadCount =>
      var current := g.states[f.state].count;
      Proceed(ch, g, f.(number := current), if current >= g.maxPoolSize then Register else CompareExchange)
    case CompareExchange =>
      if g.states[f.state].count == f.number then Proceed(ch, AddCount(g, f.state, 1), f, Opening)
      else Proceed(ch, g, f, ReadCount)
    case _ => Disabled
  }

  /** `Rent`: opening a session in the reserved slot, or giving the slot up. */
  function ActOpen(g: Shared, f: Frame, ch: Choice): (o: Outcome)
    requires FrameInRange(f, |g.states|)
    ensures Regular(g, f, o)
  {
    match f.pc
    case Opening =>
      Ask(ch, Moved(g.(next := g.next + 1), f.(pc := Deliver, session := g.next)), Moved(g, f.(pc := FailDecrement)))
    case FailDecrement => Proceed(ch, AddCount(g, f.state, -1), f, FailRelease)
    case FailRelease => Proceed(ch, AddPermits(g, f.state, 1), f, Throw)
    case _ => Disabled
  }

  /** `Rent`: registering as a waiter and waiting. */
  function ActRegister(g: Shared, f: Frame, ch: Choice): (o: Outcome)
    requires FrameInRange(f, |g.states|)
    ensures Regular(g, f, o)
  {
    match f.pc
    case Register => Proceed(ch, AddWaiters(g, f.state, 1), f, CheckMember)
    case CheckMember =>
      if g.active == Some(f.state) then Proceed(ch, g, f, Blocked)
      else Proceed(ch, g, f.(pending := f.pending + [f.state]), GetOrAdd)
    case Blocked =>
      var p := g.states[f.state];
      if ch == Go && p.permits > 0 then
        Moved(Update(g, f.state, p.(permits := p.permits - 1)), f.(pc := Woken))
      else if ch == Cancel && f.isAsync then Moved(g, f.(pc := Cancelled))
      else Disabled
    case _ => Disabled
  }

  /** `Rent`: after the wait. */
  function ActWake(g: Shared, f: Frame, ch: Choice): (o: Outcome)
    requires FrameInRange(f, |g.states|)
    ensures Regular(g, f, o)
  {
    match f.pc
    case Cancelled => Proceed(ch, AddWaiters(g, f.state, -1), f, Throw)
    case Woken => Proceed(ch, AddWaiters(g, f.state, -1), f, Recheck)
    case Recheck => Proceed(ch, g, f, if g.active == Some(f.state) then Retake else GetOrAdd)
    case _ => Disabled
  }

  /** Leaving `Rent`: first the `finally` blocks of the outer calls, innermost first. */
  function ActLeave(g: Shared, f: Frame, ch: Choice): (o: Outcome)
    requires FrameInRange(f, |g.states|) && PhaseOf(f.pc) == Leaving
    ensures Regular(g, f, o)
  {
    if f.pending != [] then
      var last := |f.pending| - 1;
      Proceed(ch, AddWaiters(g, f.pending[last], -1), f.(pending := f.pending[..last]), f.pc)
    else
      match f.pc
      case Deliver => Proceed(ch, g.(rented := g.rented[f.session := f.state]), f, Idle)
      case Throw => Proceed(ch, g, f, Idle)
      case _ => Disabled
  }

  /** `Return`: finding the pool state to give the session to, if there is one. */
  function ActLookup(g: Shared, f: Frame, ch: Choice): (o: Outcome)
    requires FrameInRange(f, |g.states|) && f.pc.Lookup?
    ensures Regular(g, f, o)
  {
    if g.active == Some(f.state) then Proceed(ch, g, f, Add)
    else
      var p := g.states[f.state];
      var left := Update(g, f.state, p.(departed := p.departed + 1));
      if g.active.Some? && g.active.value < |g.states| then
        var q := left.states[g.active.value];
        Proceed(ch, Update(left, g.active.value, q.(foreign := q.foreign + 1)), f.(state := g.active.value), Add)
      else Proceed(ch, left, f, ReturnDispose)
  }

  /** `Return`: adding the session and releasing a permit, or disposing it. */
  function ActReturn(g: Shared, f: Frame, ch: Choice): (o: Outcome)
    requires FrameInRange(f, |g.states|)
    ensures Regular(g, f, o)
  {
    match f.pc
    case Add =>
      var p := g.states[f.state];
      Proceed(ch, Update(g, f.state, p.(bag := p.bag + multiset{f.session})), f, Release)
    case Release => Proceed(ch, AddPermits(g, f.state, 1), f, Idle)
    case ReturnDispose => Proceed(ch, Dispose(g, f.session), f, Idle)
    case _ => Disabled
  }

  /** `Clear`: emptying the bag of the retired pool state. */
  function ActDrain(g: Shared, f: Frame, ch: Choice): (o: Outcome)
    requires FrameInRange(f, |g.states|) && f.pc.Drain?
    ensures Regular(g, f, o)
  {
    TryTake(g, f, ch, DrainDispose, ReadWaiters)
  }

  /** `Clear`: disposing what it took, and waking everybody who waits on the retired pool state. */
  function ActDismiss(g: Shared, f: Frame, ch: Choice): (o: Outcome)
    requires FrameInRange(f, |g.states|)
    ensures Regular(g, f, o)
  {
    match f.pc
    case DrainDispose =>
      var p := g.states[f.state];
      Proceed(ch, Dispose(Update(g, f.state, p.(departed := p.departed + 1)), f.session), f, Drain)
    case ReadWaiters =>
      var waiters := g.states[f.state].waiters;
      Proceed(ch, g, f.(number := waiters), if waiters > 0 then Broadcast else Idle)
    case Broadcast =>
      if f.number >= 0 then Proceed(ch, AddPermits(g, f.state, f.number), f, Idle) else Disabled
    case _ => Disabled
  }

  /** The part of `Rent`, `Return` or `Clear` a position belongs to. */
  datatype Phase =
    | Between | Entering | Trying | Validating | Reserving | OpeningUp
    | Registering | Waking | Leaving | LookingUp | Returning | Draining | Dismissing

  function PhaseOf(pc: Pc): Phase {
    match pc
    case Idle => Between
    case GetOrAdd | Remove => Entering
    case FastTake | Retake => Trying
    case Validate | EvictDispose | EvictDecrement => Validating
    case ReadCount | CompareExchange => Reserving
    case Opening | FailDecrement | FailRelease => OpeningUp
    case Register | CheckMember | Blocked => Registering
    case Cancelled | Woken | Recheck => Waking
    case Deliver | Throw => Leaving
    case Lookup => LookingUp
    case Add | Release | ReturnDispose => Returning
    case Drain => Draining
    case DrainDispose | ReadWaiters | Broadcast => Dismissing
  }

  /** The part of `Rent` before a wait. */
  predicate Searching(f: Frame) {
    PhaseOf(f.pc) in {Entering, Trying, Validating, Reserving, OpeningUp}
  }

  /** The thread is in this part of its call, and names only pool states that exist. */
  predicate At(g: Shared, f: Frame, phase: Phase) {
    FrameInRange(f, |g.states|) && PhaseOf(f.pc) == phase
  }

  function Act(g: Shared, f: Frame, ch: Choice): (o: Outcome)
    requires FrameInRange(f, |g.states|)
    ensures Regular(g, f, o)
  {
    match PhaseOf(f.pc)
    case Between => ActIdle(g, f, ch)
    case Entering => ActEnter(g, f, ch)
    case Trying => ActTry(g, f, ch)
    case Validating => ActValidate(g, f, ch)
    case Reserving => ActReserve(g, f, ch)
    case OpeningUp => ActOpen(g, f, ch)
    case Registering => ActRegister(g, f, ch)
    case Waking => ActWake(g, f, ch)
    case Leaving => ActLeave(g, f, ch)
    case LookingUp => ActLookup(g, f, ch)
    case Returning => ActReturn(g, f, ch)
    case Draining => ActDrain(g, f, ch)
    case Dismissing => ActDismiss(g, f, ch)
  }

  /** One atomic step of thread `i`; None when that step is not enabled. */
  function Step(c: Config, i: nat, ch: Choice): Option<Config> {
    if i >= |c.threads| || !FrameInRange(c.threads[i], |c.shared.states|) then None
    else
      match Act(c.shared, c.threads[i], ch)
      case Disabled => None
      case Moved(g, f) => Some(Config(g, c.threads[i := f]))
  }

  /** A schedule names the thread that steps next and what the environment decides for it. */
  datatype Move = Move(thread: nat, choice: Choice)

  function Run(c: Config, schedule: seq<Move>): Option<Config> {
    if schedule == [] then Some(c)
    else
      var r := Run(c, schedule[..|schedule| - 1]);
      var m := schedule[|schedule| - 1];
      if r.None? then None else Step(r.value, m.thread, m.choice)
  }

  ghost predicate Reachable(c: Config) {
    exists threads: nat, maxPoolSize: nat, schedule: seq<Move> ::
      maxPoolSize >= 1 && Run(Init(threads, maxPoolSize), schedule) == Some(c)
  }
}
