/** The reader with its fields updated in place, as the loops of the source do it.  Each method is
    the function of the same name in ReaderModel, applied to the fields. */
module Reader {
  import opened Options
  import opened Engine
  import opened ReaderModel
  import opened ReaderFrame
  import Model = ReaderModel

  /** What the readers of a connection share: the database behind it, its change counter, and, as
      history, the writes that took effect. */
  class Session<D> {
    var db: D
    var changes: nat
    ghost var log: seq<Write>

    constructor (d: D, changes: nat)
      ensures db == d && this.changes == changes && log == []
    {
      db, this.changes, log := d, changes, [];
    }
  }

  /** One turn of the loop that steps a statement to its end. */
  lemma RunTurn<D(!new)>(x: Context<D>, st: State<D>)
    requires st.live.Some?
    ensures var (next, a) := Step(x, st);
      && next.live.Some?
      && RunToEnd(x, st) == (if a.Yes? then RunToEnd(x, next) else (next, a))
      && (a.Yes? ==> StepsLeft(x, next) < StepsLeft(x, st))
  {
  }

  /** One turn of the loop of `NextResultCore`, after the current statement has been let go as `free`. */
  lemma AdvanceLoop<D(!new)>(x: Context<D>, st: State<D>, free: State<D>)
    requires !ReleaseThrows(st) && free == Detached(AddChanges(st))
    ensures
      var n := PrepareAndBind(x.engine, x.command, st.source, st.db, true);
      Advance(x, st) ==
        if !n.Ready? then (free.(source := n.src), if n.Finished? then No else Thrown)
        else if n.statement.columns > 0 then (Take(free, n.statement, n.slots, n.src), Yes)
        else AfterPlain(x, RunToEnd(x, Take(free, n.statement, n.slots, n.src)))
  {
  }

  /** One turn of the loop of `DrainRemainingStatements`. */
  lemma DrainLoop<D(!new)>(x: Context<D>, st: State<D>)
    ensures
      var n := PrepareAndBind(x.engine, x.command, st.source, st.db, false);
      DrainRest(x, st) ==
        if n.Threw? then st.(source := n.src)
        else if n.Finished? then st.(source := n.src, live := None)
        else AfterDrained(x, RunToEnd(x, Take(st, n.statement, n.slots, n.src)))
  {
  }

  class SqliteDataReader<D(!new)> {
    const x: Context<D>
    const session: Session<D>
    var stmt: Option<Live<D>>
    var hasRow: bool
    var prefetched: bool
    var readStarted: bool
    var closed: bool
    var recordsAffected: int
    var batch: Source

    constructor (x: Context<D>, session: Session<D>, batch: Source)
      ensures this.x == x && this.session == session
      ensures View() == Fields(batch, session.db, session.changes).(log := session.log)
    {
      this.x, this.session, this.batch := x, session, batch;
      stmt, hasRow, prefetched, readStarted, closed, recordsAffected := None, false, false, false, false, -1;
    }

    ghost function View(): State<D>
      reads this, session
    {
      State(stmt, hasRow, prefetched, readStarted, closed, recordsAffected, batch, session.db, session.changes, session.log)
    }

    /** `Statement.Step` on the current handle. */
    method StepStatement() returns (a: Answer)
      requires stmt.Some?
      modifies this`stmt, session
      ensures (View(), a) == Step(x, old(View()))
    {
      var l := stmt.value;
      if l.cursor.Rows? {
        var run := l.cursor.run;
        if l.cursor.pos < |run.rows| {
          stmt := Some(l.(cursor := Rows(run, l.cursor.pos + 1)));
          return Yes;
        }
        if run.error {
          stmt := Some(l.(cursor := Broken));
          return Thrown;
        }
        if run.changes.Some? { session.changes := run.changes.value; }
        stmt := Some(l.(cursor := Done));
        return No;
      }
      var run := x.engine.execute(l.statement, l.slots, session.db);
      if run.rows == [] && run.error {
        stmt := Some(l.(cursor := Broken));
        return Thrown;
      }
      session.db := run.after;
      session.log := session.log + Logged(l.statement, l.slots, run, session.changes);
      if run.rows == [] {
        if run.changes.Some? { session.changes := run.changes.value; }
        stmt := Some(l.(cursor := Done));
        return No;
      }
      stmt := Some(l.(cursor := Rows(run, 1)));
      return Yes;
    }

    method ExecuteCurrentStatementStep() returns (a: Answer)
      modifies this`stmt, session
      ensures (View(), a) == if old(stmt).None? then (old(View()), No) else Step(x, old(View()))
    {
      if stmt.None? { return No; }
      a := StepStatement();
    }

    method ExecuteCurrentStatementToEnd() returns (a: Answer)
      requires stmt.Some?
      modifies this`stmt, session
      ensures (View(), a) == RunToEnd(x, old(View()))
    {
      ghost var start, now := View(), View();
      RunTurn(x, now);
      a := ExecuteCurrentStatementStep();
      while a.Yes?
        invariant stmt.Some?
        invariant RunToEnd(x, start) == if a.Yes? then RunToEnd(x, View()) else (View(), a)
        decreases a.Yes?, if a.Yes? then StepsLeft(x, View()) else 0
      {
        now := View();
        RunTurn(x, now);
        a := ExecuteCurrentStatementStep();
      }
    }

    method AddChangesFromCurrentStatement()
      modifies this`recordsAffected
      ensures View() == AddChanges(old(View()))
    {
      if stmt.None? { return; }
      if !stmt.value.statement.readOnly {
        if session.changes > 0 {
          recordsAffected := if recordsAffected < 0 then session.changes else recordsAffected + session.changes;
        }
      }
    }

    /** `ReleaseStatement` in the eyes of the reader: a handle that failed reports it once more. */
    method ReleaseStatement() returns (thrown: bool)
      modifies this`stmt
      ensures thrown == ReleaseThrows(old(View()))
      ensures View() == if thrown then WithCursor(old(View()), Fresh) else old(View())
    {
      if batch.Cached? && stmt.Some? && stmt.value.cursor.Broken? {
        stmt := Some(stmt.value.(cursor := Fresh));
        return true;
      }
      return false;
    }

    /** `PrepareAndBindNext`, on the batch state of this reader. */
    method PrepareAndBindNext(strict: bool) returns (next: Option<Live<D>>, thrown: bool)
      modifies this`batch
      ensures match PrepareAndBind(x.engine, x.command, old(batch), session.db, strict)
              case Ready(s, slots, src) => next == Some(Live(s, slots, Fresh)) && !thrown && batch == src
              case Finished(src) => next == None && !thrown && batch == src
              case Threw(src) => next == None && thrown && batch == src
    {
      var n := PrepareAndBind(x.engine, x.command, batch, session.db, strict);
      batch := n.src;
      next := if n.Ready? then Some(Live(n.statement, n.slots, Fresh)) else None;
      thrown := n.Threw?;
    }

    method NextResultCore(initialResult: bool) returns (a: Answer)
      modifies this, session
      ensures (View(), a) == if !initialResult && x.singleResult then (old(View()), No) else Advance(x, old(View()))
    {
      if !initialResult && x.singleResult { return No; }
      ghost var start := View();
      while true
        invariant Advance(x, start) == Advance(x, View())
        decreases Left(batch)
      {
        ghost var st := View();
        AddChangesFromCurrentStatement();
        var thrown := ReleaseStatement();
        if thrown {
          ReleaseTurn(x, st);
          return Thrown;
        }
        stmt := None;
        prefetched := false;
        readStarted := false;
        hasRow := false;
        AdvanceLoop(x, st, View());
        var next: Option<Live<D>>;
        next, thrown := PrepareAndBindNext(true);
        if thrown { return Thrown; }
        if next.None? { return No; }
        stmt := next;
        if stmt.value.statement.columns > 0 { return Yes; }
        var run := ExecuteCurrentStatementToEnd();
        if run.Thrown? { return Thrown; }
      }
    }

    /** `DrainRemainingStatements`: an error ends it silently. */
    method DrainRemainingStatements()
      modifies this, session
      ensures View() == Drain(x, old(View()))
    {
      if stmt.Some? {
        var run := ExecuteCurrentStatementToEnd();
        if run.Thrown? { return; }
        AddChangesFromCurrentStatement();
      }
      assert Drain(x, old(View())) == DrainRest(x, View());
      while true
        invariant Drain(x, old(View())) == DrainRest(x, View())
        decreases Left(batch)
      {
        DrainLoop(x, View());
        var next, thrown := PrepareAndBindNext(false);
        if thrown { return; }
        stmt := next;
        if stmt.None? { break; }
        var run := ExecuteCurrentStatementToEnd();
        if run.Thrown? { return; }
        AddChangesFromCurrentStatement();
      }
    }

    method Close() returns (a: Answer)
      modifies this, session
      ensures (View(), a) == Model.Close(x, old(View()))
    {
      if closed { return No; }
      DrainRemainingStatements();
      closed := true;
      var thrown := ReleaseStatement();
      if thrown { return Thrown; }
      stmt := None;
      return No;
    }

    method NextResult() returns (a: Answer)
      modifies this, session
      ensures (View(), a) == Model.NextResult(x, old(View()))
    {
      if closed { return Thrown; }
      a := NextResultCore(false);
    }

    method EnsurePrefetched() returns (thrown: bool)
      modifies this, session
      ensures !old(closed) ==> (View(), if thrown then Thrown else Answered(hasRow)) == Model.HasRows(x, old(View()))
    {
      if prefetched || readStarted { return false; }
      var a := ExecuteCurrentStatementStep();
      if a.Thrown? { return true; }
      hasRow := a.Yes?;
      prefetched := true;
      return false;
    }

    method HasRows() returns (a: Answer)
      modifies this, session
      ensures (View(), a) == Model.HasRows(x, old(View()))
    {
      if closed { return Thrown; }
      var thrown := EnsurePrefetched();
      a := if thrown then Thrown else Answered(hasRow);
    }

    method Read() returns (a: Answer)
      modifies this, session
      ensures (View(), a) == Model.Read(x, old(View()))
    {
      if closed { return Thrown; }
      readStarted := true;
      if prefetched {
        prefetched := false;
      } else {
        var step := ExecuteCurrentStatementStep();
        if step.Thrown? { return Thrown; }
        hasRow := step.Yes?;
        if !hasRow { prefetched := true; }
      }
      if !hasRow { AddChangesFromCurrentStatement(); }
      if !hasRow && x.singleRow {
        var shut := Close();
        if shut.Thrown? { return Thrown; }
        return No;
      }
      return Answered(hasRow);
    }
  }

  /** A reader does the same on a session whose history is not empty. */
  lemma CreateShifts<D(!new)>(x: Context<D>, before: seq<Write>, src: Source, d: D, n: nat)
    ensures
      var a, b := Fields(src, d, n), Fields(src, d, n).(log := before);
      && Advance(x, a).1 == Advance(x, b).1
      && Advance(x, b).0 == Advance(x, a).0.(log := before + Advance(x, a).0.log)
      && Model.Close(x, Advance(x, b).0).0 ==
           Model.Close(x, Advance(x, a).0).0.(log := before + Model.Close(x, Advance(x, a).0).0.log)
  {
    var a, b := Fields(src, d, n), Fields(src, d, n).(log := before);
    assert before + [] == before;
    AdvanceShifts(x, before, true, a, b);
    CloseShifts(x, before, true, Advance(x, a).0, Advance(x, b).0);
  }

  /** `SqliteDataReader.Create`. */
  method Create<D(!new)>(x: Context<D>, session: Session<D>, batch: Source)
    returns (reader: SqliteDataReader<D>, thrown: bool)
    modifies session
    ensures fresh(reader) && reader.x == x && reader.session == session
    ensures
      var (st, a) := Model.Create(x, batch, old(session.db), old(session.changes));
      reader.View() == st.(log := old(session.log) + st.log) && thrown == a.Thrown?
  {
    CreateShifts(x, session.log, batch, session.db, session.changes);
    reader := new SqliteDataReader(x, session, batch);
    var a := reader.NextResultCore(true);
    thrown := a.Thrown?;
    if thrown { var _ := reader.Close(); }
  }
}
