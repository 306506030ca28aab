/** Runs of the transactions of one connection. */
module TransactionRuns {
  import opened Options
  import opened ConnectionModel
  import opened WriterGate

  function Calls(c: Conn, actions: seq<Action>): Conn
    decreases |actions|
  {
    if actions == [] then c else Calls(Act(c, actions[0]).0, actions[1..])
  }

  lemma {:induction false} CallsSound(c: Conn, actions: seq<Action>)
    requires Sound(c)
    ensures Sound(Calls(c, actions))
    decreases |actions|
  {
    if actions != [] {
      ActSound(c, actions[0]);
      CallsSound(Act(c, actions[0]).0, actions[1..]);
    }
  }

  // ---- ending a transaction ----

  /** A transaction that is completed stays as it is; no transaction is forgotten. */
  predicate Settles(c: Conn, next: Conn) {
    && |c.transactions| <= |next.transactions|
    && forall t :: 0 <= t < |c.transactions| && c.transactions[t].completed ==> next.transactions[t] == c.transactions[t]
  }

  lemma ActSettles(c: Conn, a: Action)
    ensures Settles(c, Act(c, a).0)
  {
  }

  lemma {:induction false} CallsSettle(c: Conn, actions: seq<Action>)
    ensures Settles(c, Calls(c, actions))
    decreases |actions|
  {
    if actions != [] {
      ActSettles(c, actions[0]);
      CallsSettle(Act(c, actions[0]).0, actions[1..]);
    }
  }

  /** Of all the commits and rollbacks of a transaction object, by calls or by its disposal, at most
      one succeeds; and after one has, none succeeds again. */
  lemma EndsOnce(before: seq<Action>, after: seq<Action>, t: nat)
    ensures
      var c := Calls(FRESH, before);
      var end := Calls(c, after);
      t < |c.transactions| ==>
        && t < |end.transactions| && end.transactions[t].ends <= 1
        && (c.transactions[t].ends == 1 ==> c.transactions[t].completed && end.transactions[t] == c.transactions[t])
  {
    CallsSound(FRESH, before);
    CallsSound(Calls(FRESH, before), after);
    CallsSettle(Calls(FRESH, before), after);
  }

  /** After the disposal of a transaction its connection has neither a registered transaction nor
      the writer gate, whatever happened to the rollback. */
  lemma DisposeLeavesNothing(c: Conn, t: nat, ok: bool, left: bool)
    requires Sound(c) && c.pc.Idle? && t < |c.transactions|
    ensures var d := Act(c, Dispose(t, ok, left)).0;
      && d.active.None? && d.gate.None?
      && (d.engine <==> c.engine && (c.transactions[t].completed || (!ok && left)))
      && (c.open && !c.transactions[t].completed && (ok || !c.engine) ==> d.transactions[t].completed)
  {
  }

  // ---- the engine and the registration ----

  /** While the engine is inside a transaction, one is registered. */
  predicate Registered(c: Conn) { c.engine ==> c.active.Some? }

  /** A completed transaction is disposed of while the engine is inside another one, or the
      rollback of a disposal fails and leaves the engine inside; or a session is handed out that is
      still inside a transaction. */
  predicate Unregisters(c: Conn, a: Action) {
    c.pc.Idle? &&
      match a
      case Dispose(t, ok, left) => t < |c.transactions| && c.engine && (c.transactions[t].completed || (!ok && left))
      case Open(_, dirty) => !c.open && dirty
      case _ => false
  }

  /** Exactly those calls break the registration. */
  lemma ExactlyUnregisters(c: Conn, a: Action)
    requires Sound(c) && Registered(c)
    ensures Registered(Act(c, a).0) <==> !Unregisters(c, a)
  {
  }

  /** The transaction the engine is inside of is registered nowhere. */
  predicate Unregistered(c: Conn) { c.engine && c.active.None? }

  lemma UnregistersExactly()
    ensures Causes(_ => true, Unregistered, Unregisters)
  {
    forall c: Conn, a: Action | Sound(c) && !Unregistered(c) ensures Unregistered(Act(c, a).0) <==> Unregisters(c, a) {
      ExactlyUnregisters(c, a);
    }
  }

  ghost predicate UnregisteredBy(s: System, events: seq<Event>, i: nat, p: nat)
    requires i < |s.conns|
  {
    CausedAt(Trace(s, events, i), events, i, Unregistered, Unregisters, p)
  }

  /** What unregisters a transaction.  In every run of any connections, the engine of one of them is
      inside a transaction nobody is registered for, if and only if one of those calls has left it so
      and it has been so ever since. */
  lemma WhatUnregisters(n: nat, events: seq<Event>, i: nat)
    requires i < n
    ensures |Run(Start(n), events).conns| == n
    ensures Unregistered(Run(Start(n), events).conns[i]) <==> exists p: nat :: UnregisteredBy(Start(n), events, i, p)
  {
    StartConserved(n);
    UnregistersExactly();
    TraceEnds(Start(n), events, i);
    if Unregistered(Run(Start(n), events).conns[i]) {
      LastCause(Start(n), events, i, _ => true, Unregistered, Unregisters);
      assert !Unregistered(Trace(Start(n), events, i)[0]);
      var p: nat :| CausedAt(Trace(Start(n), events, i), events, i, Unregistered, Unregisters, p);
      assert UnregisteredBy(Start(n), events, i, p);
    }
  }

  lemma CallsStep(c: Conn, actions: seq<Action>)
    requires actions != []
    ensures Calls(c, actions) == Calls(Act(c, actions[0]).0, actions[1..])
  {
  }

  /** A completed transaction is disposed of after the next one has begun: the engine is inside a
      transaction that is not completed, and nobody is registered. */
  lemma LateDisposal()
    ensures
      var c := Calls(FRESH, [Open(0, false), Begin(true), End(0, true, false), Begin(true), Dispose(0, true, false)]);
      Unregistered(c) && c.open && |c.transactions| == 2 && !c.transactions[1].completed
  {
    var tail := [Begin(true), Dispose(0, true, false)];
    var idle := FRESH.(open := true);
    var first := idle.(engine := true, active := Some(0), transactions := [Transaction(false, 0)]);
    var ended := idle.(transactions := [Transaction(true, 1)]);
    var second := idle.(engine := true, active := Some(1), transactions := [Transaction(true, 1), Transaction(false, 0)]);
    var actions := [Open(0, false), Begin(true), End(0, true, false)] + tail;
    assert actions == [Open(0, false), Begin(true), End(0, true, false), Begin(true), Dispose(0, true, false)];
    assert Act(FRESH, actions[0]).0 == idle && Act(idle, actions[1]).0 == first && Act(first, actions[2]).0 == ended;
    assert Act(ended, tail[0]).0 == second && Act(second, tail[1]).0 == second.(active := None);
    CallsStep(FRESH, actions);
    CallsStep(idle, actions[1..]);
    CallsStep(first, actions[1..][1..]);
    assert actions[1..][1..][1..] == tail;
    CallsStep(ended, tail);
    CallsStep(second, tail[1..]);
  }

  ghost predicate Orderly(c: Conn, actions: seq<Action>)
    decreases |actions|
  {
    actions == [] || (!Unregisters(c, actions[0]) && Orderly(Act(c, actions[0]).0, actions[1..]))
  }

  lemma {:induction false} CallsRegistered(c: Conn, actions: seq<Action>)
    requires Sound(c) && Registered(c) && Orderly(c, actions)
    ensures Registered(Calls(c, actions))
    decreases |actions|
  {
    if actions != [] {
      ActSound(c, actions[0]);
      ExactlyUnregisters(c, actions[0]);
      CallsRegistered(Act(c, actions[0]).0, actions[1..]);
    }
  }

  /** Transaction runs.  As long as every transaction is disposed of before the next one begins or
      with the engine still inside it, rollbacks of disposals do not fail and sessions come without
      a transaction: whenever the engine of an open connection is inside a transaction, a
      transaction that is not completed is registered; so `BeginTransaction` refuses a second. */
  lemma EngineImpliesRegistered(actions: seq<Action>)
    requires Orderly(FRESH, actions)
    ensures
      var c := Calls(FRESH, actions);
      c.engine ==>
        && c.open && c.active.Some? && c.active.value < |c.transactions| && !c.transactions[c.active.value].completed
        && forall ok :: Act(c, Begin(ok)).0 == c
  {
    CallsSound(FRESH, actions);
    CallsRegistered(FRESH, actions);
  }

  // ---- beginning a transaction ----

  /** A registration that is out of date, because the engine has left the transaction, stands in the way
      of the next one: `BeginTransaction` refuses until somebody looks at the transaction, and succeeds
      then. */
  lemma StaleRegistrationBlocks(c: Conn, ok: bool)
    requires Sound(c) && c.pc.Idle? && c.open && !c.engine && c.active.Some?
    ensures Act(c, Begin(ok)).0 == c
    ensures forall look: Action | look.ReadTransaction? || look == ReadConnection(c.active.value) ::
      var next := Act(Act(c, look).0, Begin(true)).0;
      next.engine && next.active == Some(|c.transactions|) && next.transactions[..|c.transactions|] == Act(c, look).0.transactions
  {
  }

  // ---- what a connection is set up for ----

  /** The key and the pooling of the last connection string, and whether the connection is open. */
  datatype Setup = Setup(key: Key, pooled: bool, open: bool)

  /** A call while the connection is at rest. */
  function SetUp(s: Setup, a: Action): Setup {
    match a
    case SetConnectionString(key, pooled) => if s.open then s else s.(key := key, pooled := pooled)
    case Open(key, _) => if s.open then s else s.(key := key, open := true)
    case Close => s.(open := false)
    case _ => s
  }

  function SetUpBy(c: Conn, s: Setup, actions: seq<Action>): Setup
    decreases |actions|
  {
    if actions == [] then s
    else SetUpBy(Act(c, actions[0]).0, if c.pc.Idle? then SetUp(s, actions[0]) else s, actions[1..])
  }

  /** In every run a connection is open exactly between an `Open` and the next `Close`, and its key, which
      is the one whose gate it takes, is that of its last connection string: nothing else changes them,
      and neither does a connection string while the connection is open. */
  lemma {:induction false} SetUpOnly(c: Conn, actions: seq<Action>)
    ensures
      var end := Calls(c, actions);
      Setup(end.key, end.pooled, end.open) == SetUpBy(c, Setup(c.key, c.pooled, c.open), actions)
    ensures Act(Calls(c, actions), Enter).1.Take? ==>
      Act(Calls(c, actions), Enter).1.key == SetUpBy(c, Setup(c.key, c.pooled, c.open), actions).key
    decreases |actions|
  {
    if actions != [] {
      ActSetsUp(c, actions[0]);
      SetUpOnly(Act(c, actions[0]).0, actions[1..]);
    }
  }

  lemma ActSetsUp(c: Conn, a: Action)
    ensures
      var s, next := Setup(c.key, c.pooled, c.open), Act(c, a).0;
      Setup(next.key, next.pooled, next.open) == if c.pc.Idle? then SetUp(s, a) else s
  {
  }
}
