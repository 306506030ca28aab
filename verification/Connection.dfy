/** The gate coordinator, the connection and its transactions as objects.  The methods of a
    connection are the calls of ConnectionModel on its fields. */
module Connections {
  import opened Options
  import Model = ConnectionModel

  type Key = Model.Key

  /** A semaphore of one permit; a wait without a permit blocks. */
  class SemaphoreSlim {
    var count: nat

    constructor ()
      ensures count == 1
    {
      count := 1;
    }

    method Wait() returns (blocked: bool)
      modifies this
      ensures blocked == (old(count) == 0) && count == if blocked then 0 else old(count) - 1
    {
      if count == 0 { return true; }
      count := count - 1;
      return false;
    }

    method Release()
      modifies this
      ensures count == old(count) + 1
    {
      count := count + 1;
    }
  }

  class Releaser {
    const gate: SemaphoreSlim
    ghost const key: Key
    var disposed: bool

    constructor (gate: SemaphoreSlim, ghost key: Key)
      ensures this.gate == gate && this.key == key && !disposed
    {
      this.gate, this.key, disposed := gate, key, false;
    }

    /** However often it is called, the semaphore is released once. */
    method Dispose()
      modifies this, gate
      ensures disposed && gate.count == old(gate.count) + if old(disposed) then 0 else 1
    {
      if disposed { return; }
      disposed := true;
      gate.Release();
    }
  }

  class SingleWriterCoordinator {
    var gates: map<Key, SemaphoreSlim>

    constructor ()
      ensures gates == map[]
    {
      gates := map[];
    }

    /** Every key has a semaphore of its own. */
    ghost predicate Valid() reads this {
      forall k, l :: k in gates && l in gates && gates[k] == gates[l] ==> k == l
    }

    ghost function Permits(k: Key): nat
      reads this, gates.Values
    {
      if k in gates then gates[k].count else 1
    }

    /** `Acquire`: null where it blocks. */
    method Acquire(key: Key) returns (releaser: Releaser?)
      requires Valid()
      modifies this, gates.Values
      ensures Valid() && key in gates && gates.Keys == old(gates.Keys) + {key}
      ensures forall k :: k in old(gates) ==> gates[k] == old(gates)[k]
      ensures key !in old(gates) ==> fresh(gates[key])
      ensures (releaser == null) == (old(Permits(key)) == 0)
      ensures releaser != null ==>
        fresh(releaser) && releaser.gate == gates[key] && releaser.key == key && !releaser.disposed
      ensures Permits(key) == if releaser == null then 0 else old(Permits(key)) - 1
      ensures forall k :: k in old(gates) && k != key ==> gates[k].count == old(gates[k].count)
    {
      if key !in gates {
        var made := new SemaphoreSlim();
        gates := gates[key := made];
      }
      var gate := gates[key];
      assert key in gates && gate in gates.Values;
      var blocked := gate.Wait();
      releaser := null;
      if !blocked { releaser := new Releaser(gate, key); }
    }
  }

  /** A connection that has got the gate, if it had not got it already. */
  function Gated(c: Model.Conn): Model.Conn { if c.gate.Some? then c else c.(gate := Some(c.key)) }

  /** Maintenance from its start to its end, if it gets the gate. */
  lemma MaintenanceInFull(c: Model.Conn, ok: bool)
    requires c.pc.Idle?
    ensures Model.Act(Model.Through(Model.Act(c, Model.StartMaintenance).0), Model.Finish(ok)).0 ==
      if !c.open then c else if ok then c.(gate := None) else Gated(c)
  {
  }

  /** A write from its start to its end, if it gets the gate. */
  lemma WriteInFull(c: Model.Conn, ok: bool)
    requires c.pc.Idle?
    ensures Model.Act(Model.Through(Model.Act(c, Model.StartWrite).0), Model.Finish(ok)).0 ==
      if !c.open then c else if ok && c.active.None? then c.(gate := None) else Gated(c)
  {
  }

  /** How acquiring the gate ends: with the gate, at the semaphore, or with an error, because the
      connection is closed. */
  datatype Acquired = Held | Blocked | Refused

  class SqliteConnection {
    const coordinator: SingleWriterCoordinator
    var writerKey: Key
    var pooling: bool
    var open: bool
    var hasActiveTransaction: bool
    var activeTransaction: SqliteTransaction?
    var writerGate: Releaser?
    /** Whether the session of the connection is inside a transaction. */
    var engine: bool
    /** History: every transaction this connection began. */
    ghost var transactions: seq<SqliteTransaction>

    constructor (coordinator: SingleWriterCoordinator)
      ensures this.coordinator == coordinator && Valid() && View() == Model.FRESH
    {
      this.coordinator := coordinator;
      writerKey, pooling, open, engine := 0, false, false, false;
      hasActiveTransaction, activeTransaction, writerGate := false, null, null;
      transactions := [];
    }

    ghost predicate Valid()
      reads this, transactions, writerGate
    {
      && (writerGate != null ==> !writerGate.disposed)
      && (forall i :: 0 <= i < |transactions| ==> transactions[i].connection == this && transactions[i].index == i)
      && hasActiveTransaction == (activeTransaction != null)
      && (activeTransaction != null ==> activeTransaction in transactions)
    }

    ghost function View(): Model.Conn
      reads this, transactions, writerGate
    {
      Model.Conn(writerKey, pooling, open, if writerGate == null then None else Some(writerGate.key), Model.Idle,
                 if activeTransaction == null then None else Some(activeTransaction.index), engine,
                 seq(|transactions|, i requires 0 <= i < |transactions| reads this, transactions => transactions[i].Value()))
    }

    /** The releaser and its semaphore. */
    ghost function Gate(): set<object>
      reads this, writerGate
    {
      if writerGate == null then {} else {writerGate, writerGate.gate}
    }

    /** The releaser belongs to the semaphore of its key. */
    ghost predicate Linked()
      reads this, writerGate, coordinator
    {
      && coordinator.Valid()
      && (writerGate != null ==>
            writerGate.key in coordinator.gates && coordinator.gates[writerGate.key] == writerGate.gate)
    }

    /** The permits of a key, and the releaser of this connection for it. */
    ghost function Free(k: Key): nat
      reads this, writerGate, coordinator, coordinator.gates.Values
    {
      coordinator.Permits(k) + if writerGate != null && writerGate.key == k then 1 else 0
    }

    method AcquireWriterGate() returns (r: Acquired)
      requires Valid() && Linked()
      modifies this`writerGate, coordinator, coordinator.gates.Values
      ensures Valid() && Linked() && forall k: Key :: Free(k) == old(Free(k))
      ensures r == if old(writerGate) != null then Held else if !open then Refused
                   else if old(coordinator.Permits(writerKey)) == 0 then Blocked else Held
      ensures View() == if r.Held? && old(writerGate) == null then old(View()).(gate := Some(writerKey)) else old(View())
      ensures writerGate != old(writerGate) ==>
        writerGate != null && fresh(writerGate) && (fresh(writerGate.gate) || writerGate.gate in old(coordinator.gates.Values))
    {
      if writerGate != null { return Held; }
      if !open { return Refused; }
      var releaser := coordinator.Acquire(writerKey);
      if releaser == null { return Blocked; }
      writerGate := releaser;
      return Held;
    }

    method DisposeWriterGate()
      requires Valid()
      modifies `writerGate, Gate()
      ensures Valid() && writerGate == null && View() == old(View()).(gate := None)
      ensures old(writerGate) != null ==>
        old(writerGate).disposed && old(writerGate).gate.count == old(writerGate.gate.count) + 1
    {
      if writerGate != null { writerGate.Dispose(); }
      writerGate := null;
    }

    method ClearActiveTransaction()
      requires Valid()
      modifies `hasActiveTransaction, `activeTransaction
      ensures Valid() && View() == old(View()).(active := None)
    {
      hasActiveTransaction := false;
      activeTransaction := null;
    }

    /** `DisposeWriterGate`, as the semaphores see it. */
    method ReleaseGate()
      requires Valid() && Linked()
      modifies `writerGate, Gate()
      ensures Valid() && Linked() && writerGate == null && View() == old(View()).(gate := None)
      ensures forall k: Key :: Free(k) == old(Free(k))
    {
      DisposeWriterGate();
    }

    /** The step of a statement that is not read-only: outside a transaction it holds the gate for
        itself only, but a step that throws leaves it held. */
    method ExecuteWritingStep(ok: bool) returns (r: Acquired)
      requires Valid() && Linked() && (writerGate != null ==> open)
      modifies this`writerGate, Gate(), coordinator, coordinator.gates.Values
      ensures Valid() && Linked() && forall k: Key :: Free(k) == old(Free(k))
      ensures View() == if r.Blocked? then old(View())
                        else Model.Act(Model.Through(Model.Act(old(View()), Model.StartWrite).0), Model.Finish(ok)).0
    {
      WriteInFull(View(), ok);
      var transaction := activeTransaction != null;
      r := AcquireWriterGate();
      if !r.Held? || !ok || transaction { return; }
      ReleaseGate();
    }

    /** `Checkpoint` and `Optimize`: they dispose of the gate whoever acquired it. */
    method Maintain(ok: bool) returns (r: Acquired)
      requires Valid() && Linked()
      modifies this`writerGate, Gate(), coordinator, coordinator.gates.Values
      ensures Valid() && Linked() && forall k: Key :: Free(k) == old(Free(k))
      ensures View() == if r.Blocked? then old(View())
                        else Model.Act(Model.Through(Model.Act(old(View()), Model.StartMaintenance).0), Model.Finish(ok)).0
    {
      MaintenanceInFull(View(), ok);
      r := AcquireWriterGate();
      if !open || !r.Held? || !ok { return; }
      ReleaseGate();
    }

    /** What the disposal of a transaction does to its connection in any case. */
    method LetGo()
      requires Valid()
      modifies `hasActiveTransaction, `activeTransaction, `writerGate, Gate()
      ensures Valid() && View() == old(View()).(active := None, gate := None)
    {
      ClearActiveTransaction();
      DisposeWriterGate();
    }

    /** A pooled connection returns its session and leaves before it would release the gate. */
    method Close()
      requires Valid()
      modifies this, Gate()
      ensures Valid() && View() == Model.Act(old(View()), Model.Close).0
      ensures pooling ==> writerGate == old(writerGate)
    {
      if !open { return; }
      open := false;
      engine := false;
      ClearActiveTransaction();
      if pooling { return; }
      if writerGate != null { DisposeWriterGate(); }
    }

    /** `BeginTransaction`: null where it throws; `ok` is whether the engine accepts the BEGIN. */
    method BeginTransaction(ok: bool) returns (t: SqliteTransaction?)
      requires Valid()
      modifies this
      ensures Valid() && View() == Model.Act(old(View()), Model.Begin(ok)).0
      ensures t != null ==> fresh(t) && t == activeTransaction && !t.completed && t.connection == this && engine
      ensures t != null <==> old(open) && !old(hasActiveTransaction) && ok && !old(engine)
    {
      if !open || hasActiveTransaction { return null; }
      hasActiveTransaction := true;
      if !ok || engine {
        hasActiveTransaction := false;
        activeTransaction := null;
        return null;
      }
      engine := true;
      t := new SqliteTransaction(this, |transactions|);
      transactions := transactions + [t];
      activeTransaction := t;
    }
  }

  lemma DisposeIsRollback(c: Model.Conn, t: nat, ok: bool, left: bool)
    requires c.pc.Idle? && t < |c.transactions|
    ensures Model.Act(c, Model.Dispose(t, ok, left)).0 ==
      var rolledBack := if c.transactions[t].completed || !c.open then c else Model.Act(c, Model.End(t, ok, left)).0;
      rolledBack.(active := None, gate := None)
  {
  }

  class SqliteTransaction {
    const connection: SqliteConnection
    ghost const index: nat
    var completed: bool
    /** History: the commits and rollbacks of this transaction that succeeded. */
    ghost var ends: nat

    constructor (connection: SqliteConnection, ghost index: nat)
      ensures this.connection == connection && this.index == index && !completed && ends == 0
    {
      this.connection, this.index, completed, ends := connection, index, false, 0;
    }

    ghost function Value(): Model.Transaction reads this { Model.Transaction(completed, ends) }

    ghost predicate Valid()
      reads this, connection, connection.transactions, connection.writerGate
    {
      connection.Valid() && index < |connection.transactions| && connection.transactions[index] == this
    }

    /** `EnsureActive`: false where it throws. */
    method EnsureActive() returns (active: bool)
      requires Valid()
      modifies `completed, connection`hasActiveTransaction, connection`activeTransaction
      ensures Valid() && active == (!old(completed) && connection.open && connection.engine)
      ensures connection.View() ==
        if !old(completed) && connection.open && !connection.engine then Model.Completed(old(connection.View()), index)
        else old(connection.View())
    {
      if completed || !connection.open { return false; }
      if !connection.engine {
        completed := true;
        connection.ClearActiveTransaction();
        return false;
      }
      return true;
    }

    /** `Commit` and `Rollback`: `ok` is whether the engine accepts the statement, and `left` whether
        it is still inside the transaction where it does not. */
    method CommitOrRollback(ok: bool, left: bool) returns (thrown: bool)
      requires Valid()
      modifies this, connection, connection.Gate()
      ensures Valid() && connection.View() == Model.Act(old(connection.View()), Model.End(index, ok, left)).0
      ensures thrown <==> old(completed) || !old(connection.open) || !old(connection.engine) || !ok
      ensures !thrown ==>
        completed && !connection.engine && connection.activeTransaction == null && connection.writerGate == null
      ensures ends == old(ends) + if thrown then 0 else 1
      ensures !old(completed) && old(connection.open) && old(connection.engine) && !ok ==>
        && !completed && connection.engine == left && connection.writerGate == null
        && connection.activeTransaction == old(connection.activeTransaction)
      ensures connection.writerGate == null || connection.writerGate == old(connection.writerGate)
    {
      var active := EnsureActive();
      if !active { return true; }
      if ok { Succeed(); } else { connection.engine := left; }
      connection.DisposeWriterGate();
      return !ok;
    }

    /** The engine has accepted the COMMIT or ROLLBACK. */
    method Succeed()
      requires Valid()
      modifies this, connection`engine, connection`hasActiveTransaction, connection`activeTransaction
      ensures Valid() && connection.View() == Model.Ended(old(connection.View()), index)
      ensures completed && ends == old(ends) + 1 && !connection.engine && connection.activeTransaction == null
    {
      connection.engine := false;
      completed := true;
      ends := ends + 1;
      connection.ClearActiveTransaction();
      assert connection.View().transactions == old(connection.View()).transactions[index := Value()];
    }

    method Dispose(ok: bool, left: bool)
      requires Valid()
      modifies this, connection, connection.Gate()
      ensures Valid() && connection.View() == Model.Act(old(connection.View()), Model.Dispose(index, ok, left)).0
    {
      DisposeIsRollback(connection.View(), index, ok, left);
      if !completed && connection.open { var _ := CommitOrRollback(ok, left); }
      connection.LetGo();
    }
  }
}
