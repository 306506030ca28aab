/** What a connection, its transactions and its writer gate do, one call at a time; and many
    connections, each used by one thread, sharing the gates. */
module ConnectionModel {
  import opened Options

  /** A writer key; keys that differ in case only are the same. */
  type Key = nat

  /** What a connection wants the writer gate for. */
  datatype Use = AutocommitWrite | TransactionWrite | Maintenance

  /** At rest, blocked in the semaphore of its key, or executing on the engine. */
  datatype Pc = Idle | Waiting(use: Use) | Running(use: Use)

  /** A transaction object; `ends` counts the commits and rollbacks of it that succeeded. */
  datatype Transaction = Transaction(completed: bool, ends: nat)

  /** `gate` is the key of the undisposed releaser in `_writerGate`; `engine` says whether the
      session of the connection is inside a transaction. */
  datatype Conn = Conn(
    key: Key,
    pooled: bool,
    open: bool,
    gate: Option<Key>,
    pc: Pc,
    active: Option<nat>,
    engine: bool,
    transactions: seq<Transaction>)

  const FRESH := Conn(0, false, false, None, Idle, None, false, [])

  /** What a call does to the semaphores. */
  datatype Effect = Still | Take(key: Key) | Release(key: Key)

  datatype Action =
    | SetConnectionString(key: Key, pooled: bool)
    | Open(key: Key, dirty: bool)
    | Close
    | Begin(ok: bool)
    | End(t: nat, ok: bool, left: bool)
    | Dispose(t: nat, ok: bool, left: bool)
    | ReadConnection(t: nat)
    | ReadTransaction
    | EngineRollsBack
    | StartWrite
    | StartMaintenance
    | Enter
    | Finish(ok: bool)

  // ---- one call on one connection ----

  function Released(c: Conn): Effect {
    if c.gate.Some? then Release(c.gate.value) else Still
  }

  /** `DisposeWriterGate`. */
  function Ungated(c: Conn): Conn { c.(gate := None) }

  function Completed(c: Conn, t: nat): Conn
    requires t < |c.transactions|
  {
    c.(transactions := c.transactions[t := c.transactions[t].(completed := true)], active := None)
  }

  function Ended(c: Conn, t: nat): Conn
    requires t < |c.transactions|
  {
    c.(engine := false, transactions := c.transactions[t := Transaction(true, c.transactions[t].ends + 1)], active := None)
  }

  /** `Commit` and `Rollback`; `left` is whether the engine is still inside the transaction if its
      statement fails. */
  function EndTransaction(c: Conn, t: nat, ok: bool, left: bool): (Conn, Effect)
    requires t < |c.transactions|
  {
    if c.transactions[t].completed || !c.open then (c, Still)
    else if !c.engine then (Completed(c, t), Still)
    else if ok then (Ungated(Ended(c, t)), Released(c))
    else (Ungated(c.(engine := left)), Released(c))
  }

  /** `SqliteTransaction.Dispose`: errors of the rollback are swallowed. */
  function DisposeTransaction(c: Conn, t: nat, ok: bool, left: bool): (Conn, Effect)
    requires t < |c.transactions|
  {
    var rolledBack := EndTransaction(c, t, ok, left).0;
    (Ungated(rolledBack.(active := None)), Released(c))
  }

  /** `AcquireWriterGate`, up to the semaphore. */
  function WantGate(c: Conn, use: Use): Conn {
    c.(pc := if c.gate.None? then Waiting(use) else Running(use))
  }

  /** A call of the thread that uses the connection; a call that throws at once changes nothing. */
  function Act(c: Conn, a: Action): (Conn, Effect) {
    match a
    case Enter => if c.pc.Waiting? then (c.(gate := Some(c.key), pc := Running(c.pc.use)), Take(c.key)) else (c, Still)
    case Finish(ok) =>
      if !c.pc.Running? then (c, Still)
      else if ok && !c.pc.use.TransactionWrite? then (Ungated(c.(pc := Idle)), Released(c))
      else (c.(pc := Idle), Still)
    case EngineRollsBack => (c.(engine := false), Still)
    case _ => if c.pc.Idle? then ActIdle(c, a) else (c, Still)
  }

  function ActIdle(c: Conn, a: Action): (Conn, Effect) {
    match a
    case SetConnectionString(key, pooled) => (if c.open then c else c.(key := key, pooled := pooled), Still)
    case Open(key, dirty) => (if c.open then c else c.(key := key, open := true, engine := dirty), Still)
    case Close =>
      if !c.open then (c, Still)
      else
        var shut := c.(open := false, active := None, engine := false);
        if c.pooled then (shut, Still) else (Ungated(shut), Released(c))
    case Begin(ok) =>
      if !c.open || c.active.Some? then (c, Still)
      else if ok && !c.engine then
        (c.(engine := true, active := Some(|c.transactions|), transactions := c.transactions + [Transaction(false, 0)]),
         Still)
      else (c.(active := None), Still)
    case End(t, ok, left) => if t < |c.transactions| then EndTransaction(c, t, ok, left) else (c, Still)
    case Dispose(t, ok, left) => if t < |c.transactions| then DisposeTransaction(c, t, ok, left) else (c, Still)
    case ReadConnection(t) =>
      if t < |c.transactions| && !c.transactions[t].completed && c.open && !c.engine then (Completed(c, t), Still)
      else (c, Still)
    case ReadTransaction => (if c.open && !c.engine then c.(active := None) else c, Still)
    case StartWrite =>
      if !c.open then (c, Still) else (WantGate(c, if c.active.Some? then TransactionWrite else AutocommitWrite), Still)
    case StartMaintenance => if !c.open then (c, Still) else (WantGate(c, Maintenance), Still)
    case _ => (c, Still)
  }

  /** A thread that wants the gate has got it. */
  function Through(c: Conn): Conn {
    if c.pc.Waiting? then Act(c, Enter).0 else c
  }

  // ---- many connections ----

  /** `permits` are the counts of the semaphores made so far; a new one starts with one permit. */
  datatype System = System(permits: map<Key, nat>, conns: seq<Conn>)

  function Permits(s: System, k: Key): nat { if k in s.permits then s.permits[k] else 1 }

  datatype Event = Event(i: nat, action: Action)

  /** A thread that finds no permit stays where it is. */
  function Step(s: System, e: Event): System {
    if e.i >= |s.conns| then s
    else
      var (c, effect) := Act(s.conns[e.i], e.action);
      match effect
      case Still => s.(conns := s.conns[e.i := c])
      case Take(k) =>
        if Permits(s, k) == 0 then s
        else System(s.permits[k := (Permits(s, k) - 1) as nat], s.conns[e.i := c])
      case Release(k) => System(s.permits[k := Permits(s, k) + 1], s.conns[e.i := c])
  }

  function Run(s: System, events: seq<Event>): System
    decreases |events|
  {
    if events == [] then s else Run(Step(s, events[0]), events[1..])
  }

  function Start(n: nat): System { System(map[], seq(n, _ => FRESH)) }
}
