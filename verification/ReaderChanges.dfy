/** What `RecordsAffected` and `ExecuteNonQuery` report. */
module ReaderChanges {
  import opened Options
  import opened Binding
  import opened Engine
  import opened ReaderModel
  import opened ReaderFrame
  import opened ReaderEager
  import opened ReaderRuns

  /** The sum of what the change counter read after each write. */
  function Readings(log: seq<Write>): nat {
    if log == [] then 0 else Readings(log[..|log| - 1]) + log[|log| - 1].reading
  }

  /** The rows inserted, updated or deleted by the writes of a log. */
  function Changed(log: seq<Write>): nat {
    if log == [] then 0
    else Changed(log[..|log| - 1]) + if log[|log| - 1].own.Some? then log[|log| - 1].own.value else 0
  }

  /** What the writes that are no INSERT, UPDATE or DELETE found in the change counter: the count
      of an earlier statement, read again. */
  function Stale(log: seq<Write>): nat {
    if log == [] then 0
    else Stale(log[..|log| - 1]) + if log[|log| - 1].own.Some? then 0 else log[|log| - 1].reading
  }

  /** As ADO.NET reports a count: -1 for none. */
  function Reported(count: nat): int { if count == 0 then -1 else count }

  /** Every entry of a log reads its own count if it has one. */
  predicate ReadsOwn(log: seq<Write>) {
    forall w :: w in log && w.own.Some? ==> w.reading == w.own.value
  }

  lemma {:induction false} AffectedIsReported(log: seq<Write>)
    ensures Affected(log) == Reported(Readings(log))
  {
    if log != [] { AffectedIsReported(log[..|log| - 1]); }
  }

  lemma {:induction false} ReadingsSplit(log: seq<Write>)
    requires ReadsOwn(log)
    ensures Readings(log) == Changed(log) + Stale(log)
  {
    if log != [] {
      assert log[|log| - 1] in log;
      forall w | w in log[..|log| - 1] ensures w in log {}
      ReadingsSplit(log[..|log| - 1]);
    }
  }

  lemma {:induction false} ReadingsAppend(a: seq<Write>, b: seq<Write>)
    ensures Readings(a + b) == Readings(a) + Readings(b)
  {
    if b == [] {
      assert a + b == a;
    } else {
      assert (a + b)[..|a + b| - 1] == a + b[..|b| - 1];
      ReadingsAppend(a, b[..|b| - 1]);
    }
  }

  lemma {:induction false} EagerReadsOwn<D(!new)>(e: Engine<D>, c: Command, src: Source, d: D, n: nat)
    ensures ReadsOwn(Eager(e, c, src, d, n).log)
    decreases Left(src)
  {
    match PrepareAndBind(e, c, src, d, true)
    case Ready(s, slots, rest) =>
      var run := e.execute(s, slots, d);
      if !run.error { EagerReadsOwn(e, c, rest, run.after, Counter(run, n)); }
    case _ =>
  }

  lemma {:induction false} StaleAppend(a: seq<Write>, b: seq<Write>)
    ensures Stale(a + b) == Stale(a) + Stale(b)
  {
    if b == [] {
      assert a + b == a;
    } else {
      assert (a + b)[..|a + b| - 1] == a + b[..|b| - 1];
      StaleAppend(a, b[..|b| - 1]);
    }
  }

  /** No write other than INSERT, UPDATE or DELETE is reached while the change counter still shows the
      count of an earlier statement. */
  predicate CounterClear<D(!new)>(e: Engine<D>, c: Command, src: Source, d: D, n: nat)
    decreases Left(src)
  {
    match PrepareAndBind(e, c, src, d, true)
    case Ready(s, slots, rest) =>
      var run := e.execute(s, slots, d);
      run.error || ((!s.readOnly && run.changes.None? ==> n == 0) && CounterClear(e, c, rest, run.after, Counter(run, n)))
    case _ => true
  }

  /** Every write of the batch is an INSERT, UPDATE or DELETE. */
  predicate OnlyChangesRows<D(!new)>(e: Engine<D>, c: Command, src: Source, d: D)
    decreases Left(src)
  {
    match PrepareAndBind(e, c, src, d, true)
    case Ready(s, slots, rest) =>
      var run := e.execute(s, slots, d);
      run.error || ((!s.readOnly ==> run.changes.Some?) && OnlyChangesRows(e, c, rest, run.after))
    case _ => true
  }

  lemma StaleLogged<D>(s: Statement, slots: Slots, run: Execution<D>, n: nat)
    ensures Stale(Logged(s, slots, run, n)) == if !s.readOnly && run.changes.None? then n else 0
  {
    if !s.readOnly { assert Logged(s, slots, run, n)[..0] == []; }
  }

  lemma {:induction false} StaleIsCounter<D(!new)>(e: Engine<D>, c: Command, src: Source, d: D, n: nat)
    ensures Stale(Eager(e, c, src, d, n).log) == 0 <==> CounterClear(e, c, src, d, n)
    decreases Left(src)
  {
    match PrepareAndBind(e, c, src, d, true)
    case Ready(s, slots, rest) =>
      var run := e.execute(s, slots, d);
      if !run.error {
        StaleIsCounter(e, c, rest, run.after, Counter(run, n));
        StaleAppend(Logged(s, slots, run, n), Eager(e, c, rest, run.after, Counter(run, n)).log);
        StaleLogged(s, slots, run, n);
      }
    case _ =>
  }

  lemma {:induction false} RowChangesClear<D(!new)>(e: Engine<D>, c: Command, src: Source, d: D, n: nat)
    requires OnlyChangesRows(e, c, src, d)
    ensures CounterClear(e, c, src, d, n)
    decreases Left(src)
  {
    match PrepareAndBind(e, c, src, d, true)
    case Ready(s, slots, rest) =>
      var run := e.execute(s, slots, d);
      if !run.error { RowChangesClear(e, c, rest, run.after, Counter(run, n)); }
    case _ =>
  }

  /** The count is that of the rows inserted, updated or deleted exactly if the counter is clear of
      old counts wherever they would be read; otherwise those have been added. */
  predicate ReportsChanged(affected: int, log: seq<Write>, clear: bool) {
    affected == Reported(Changed(log) + Stale(log)) && (affected == Reported(Changed(log)) <==> clear)
  }

  lemma AffectedReports<D(!new)>(e: Engine<D>, c: Command, src: Source, d: D, n: nat)
    ensures ReportsChanged(Affected(Eager(e, c, src, d, n).log), Eager(e, c, src, d, n).log, CounterClear(e, c, src, d, n))
  {
    var log := Eager(e, c, src, d, n).log;
    EagerReadsOwn(e, c, src, d, n);
    AffectedIsReported(log);
    ReadingsSplit(log);
    StaleIsCounter(e, c, src, d, n);
  }

  /** Conservation of changes.  However the batch was read, once the reader is closed it reports
      the rows the batch inserted, updated and deleted, if and only if no other write is reached
      while the change counter shows an old count. */
  lemma RecordsAffectedIsChanged<D(!new)>(x: Context<D>, src: Source, d: D, n: nat, calls: seq<Call>)
    requires Orderly(x.engine, x.command, src, d) && Disciplined(x, Create(x, src, d, n).0, calls)
    ensures ReportsChanged(Close(x, Drive(x, Create(x, src, d, n).0, calls)).0.recordsAffected,
                           Eager(x.engine, x.command, src, d, n).log, CounterClear(x.engine, x.command, src, d, n))
  {
    DeferredEqualsEager(x, src, d, n, calls);
    AffectedReports(x.engine, x.command, src, d, n);
  }

  /** A batch of queries, INSERT, UPDATE and DELETE statements: the sum of their counts, -1 for zero,
      whatever the caller read and whatever the counter showed before. */
  lemma RowChangesAreSummed<D(!new)>(x: Context<D>, src: Source, d: D, n: nat, calls: seq<Call>)
    requires Orderly(x.engine, x.command, src, d) && Disciplined(x, Create(x, src, d, n).0, calls)
    requires OnlyChangesRows(x.engine, x.command, src, d)
    ensures Close(x, Drive(x, Create(x, src, d, n).0, calls)).0.recordsAffected
              == Reported(Changed(Eager(x.engine, x.command, src, d, n).log))
  {
    RecordsAffectedIsChanged(x, src, d, n, calls);
    RowChangesClear(x.engine, x.command, src, d, n);
  }

  // ---- ExecuteNonQuery ----

  /** The writes before the first query of a batch. */
  function BeforeQuery<D(!new)>(e: Engine<D>, c: Command, src: Source, d: D, n: nat): seq<Write>
    decreases Left(src)
  {
    match PrepareAndBind(e, c, src, d, true)
    case Ready(s, slots, rest) =>
      var run := e.execute(s, slots, d);
      if s.columns > 0 || run.error then []
      else Logged(s, slots, run, n) + BeforeQuery(e, c, rest, run.after, Counter(run, n))
    case _ => []
  }

  /** The change counter is zero after every write. */
  predicate ReadsZero<D(!new)>(e: Engine<D>, c: Command, src: Source, d: D, n: nat)
    decreases Left(src)
  {
    match PrepareAndBind(e, c, src, d, true)
    case Ready(s, slots, rest) =>
      var run := e.execute(s, slots, d);
      run.error || ((!s.readOnly ==> Counter(run, n) == 0) && ReadsZero(e, c, rest, run.after, Counter(run, n)))
    case _ => true
  }

  /** The change counter is zero after every write from the first query on. */
  predicate ZeroFromQuery<D(!new)>(e: Engine<D>, c: Command, src: Source, d: D, n: nat)
    decreases Left(src)
  {
    match PrepareAndBind(e, c, src, d, true)
    case Ready(s, slots, rest) =>
      var run := e.execute(s, slots, d);
      || run.error
      || if s.columns > 0 then ReadsZero(e, c, src, d, n) else ZeroFromQuery(e, c, rest, run.after, Counter(run, n))
    case _ => true
  }

  /** No query comes before the end of the batch, or before its first error. */
  predicate QueryFree<D(!new)>(e: Engine<D>, c: Command, src: Source, d: D)
    decreases Left(src)
  {
    match PrepareAndBind(e, c, src, d, true)
    case Ready(s, slots, rest) =>
      var run := e.execute(s, slots, d);
      s.columns == 0 && (run.error || QueryFree(e, c, rest, run.after))
    case _ => true
  }

  lemma ReadingsLogged<D>(s: Statement, slots: Slots, run: Execution<D>, n: nat)
    ensures Readings(Logged(s, slots, run, n)) == if s.readOnly then 0 else Counter(run, n)
  {
    if !s.readOnly { assert Logged(s, slots, run, n)[..0] == []; }
  }

  lemma {:induction false} ReadsZeroExactly<D(!new)>(e: Engine<D>, c: Command, src: Source, d: D, n: nat)
    ensures Readings(Eager(e, c, src, d, n).log) == 0 <==> ReadsZero(e, c, src, d, n)
    decreases Left(src)
  {
    match PrepareAndBind(e, c, src, d, true)
    case Ready(s, slots, rest) =>
      var run := e.execute(s, slots, d);
      if !run.error {
        ReadsZeroExactly(e, c, rest, run.after, Counter(run, n));
        ReadingsAppend(Logged(s, slots, run, n), Eager(e, c, rest, run.after, Counter(run, n)).log);
        ReadingsLogged(s, slots, run, n);
      }
    case _ =>
  }

  /** The writes before the first query are all that is counted, exactly if the rest reads zero. */
  lemma {:induction false} QueryDivides<D(!new)>(e: Engine<D>, c: Command, src: Source, d: D, n: nat)
    ensures
      var all := Readings(Eager(e, c, src, d, n).log);
      var before := Readings(BeforeQuery(e, c, src, d, n));
      && before <= all && (before == all <==> ZeroFromQuery(e, c, src, d, n))
    ensures QueryFree(e, c, src, d) ==> BeforeQuery(e, c, src, d, n) == Eager(e, c, src, d, n).log
    decreases Left(src)
  {
    match PrepareAndBind(e, c, src, d, true)
    case Ready(s, slots, rest) =>
      var run := e.execute(s, slots, d);
      if s.columns > 0 {
        ReadsZeroExactly(e, c, src, d, n);
      } else if !run.error {
        QueryDivides(e, c, rest, run.after, Counter(run, n));
        ReadingsAppend(Logged(s, slots, run, n), Eager(e, c, rest, run.after, Counter(run, n)).log);
        ReadingsAppend(Logged(s, slots, run, n), BeforeQuery(e, c, rest, run.after, Counter(run, n)));
      }
    case _ =>
  }

  /** `NextResultCore` executes the writes before the next query. */
  lemma {:induction false} AdvanceLogs<D(!new)>(x: Context<D>, st: State<D>)
    requires !ReleaseThrows(st)
    ensures Advance(x, st).0.log == st.log + BeforeQuery(x.engine, x.command, st.source, st.db, st.changes)
    decreases Left(st.source)
  {
    var n := PrepareAndBind(x.engine, x.command, st.source, st.db, true);
    if Plain(x.engine, n, st.db) {
      PlainTurn(x, st, n);
      AdvanceLogs(x, RunToEnd(x, Take(Detached(AddChanges(st)), n.statement, n.slots, n.src)).0);
      PlainBefore(x.engine, x.command, st.source, st.db, st.changes, n, st.log);
    } else {
      StopTurn(x, st, n);
    }
  }

  lemma PlainBefore<D(!new)>(e: Engine<D>, c: Command, src: Source, d: D, n: nat, next: Next, log: seq<Write>)
    requires next == PrepareAndBind(e, c, src, d, true) && Plain(e, next, d)
    ensures
      var run := e.execute(next.statement, next.slots, d);
      log + BeforeQuery(e, c, src, d, n) ==
        log + Logged(next.statement, next.slots, run, n) + BeforeQuery(e, c, next.src, run.after, Counter(run, n))
  {
    var run := e.execute(next.statement, next.slots, d);
    var logged, more := Logged(next.statement, next.slots, run, n), BeforeQuery(e, c, next.src, run.after, Counter(run, n));
    assert log + (logged + more) == log + logged + more;
  }

  /** `ExecuteNonQuery`: what the reader reports as soon as it has been created, and the reader
      after it has been disposed of; None if the creation throws. */
  function ExecuteNonQuery<D(!new)>(x: Context<D>, src: Source, d: D, n: nat): (Option<int>, State<D>) {
    var (st, a) := Create(x, src, d, n);
    if a.Thrown? then (None, st) else (Some(st.recordsAffected), Close(x, st).0)
  }

  /** `ExecuteNonQuery` throws exactly if the batch fails before its first query.  Otherwise it executes
      the whole batch, but reports the writes before the first query: the total if and only if the
      change counter is zero after every write from the first query on, and so for every batch without
      a query. */
  lemma ExecuteNonQueryReports<D(!new)>(x: Context<D>, src: Source, d: D, n: nat)
    requires Orderly(x.engine, x.command, src, d)
    ensures
      var k := Eager(x.engine, x.command, src, d, n);
      var (reported, shut) := ExecuteNonQuery(x, src, d, n);
      && shut.log == k.log && shut.db == k.db
      && (reported.None? <==> FailsFirst(x.engine, x.command, src, d))
      && (reported.Some? ==>
            && reported.value == Reported(Readings(BeforeQuery(x.engine, x.command, src, d, n)))
            && (reported.value == Reported(Readings(k.log)) <==> ZeroFromQuery(x.engine, x.command, src, d, n))
            && (QueryFree(x.engine, x.command, src, d) ==> reported.value == Reported(Readings(k.log))))
  {
    var k := Eager(x.engine, x.command, src, d, n);
    var first := Create(x, src, d, n).0;
    CreateThrowsExactly(x, src, d, n);
    CreateTracks(x, src, d, n);
    CloseEnds(x, k, first);
    if !Create(x, src, d, n).1.Thrown? {
      CreateReports(x, src, d, n);
      QueryDivides(x.engine, x.command, src, d, n);
    }
  }

  lemma CreateReports<D(!new)>(x: Context<D>, src: Source, d: D, n: nat)
    requires Orderly(x.engine, x.command, src, d) && !Create(x, src, d, n).1.Thrown?
    ensures Create(x, src, d, n).0.recordsAffected == Reported(Readings(BeforeQuery(x.engine, x.command, src, d, n)))
  {
    var first := Create(x, src, d, n).0;
    var before := BeforeQuery(x.engine, x.command, src, d, n);
    CreateTracks(x, src, d, n);
    CreateCounts(x, Eager(x.engine, x.command, src, d, n), first);
    AdvanceLogs(x, Fields(src, d, n));
    assert first.log == [] + before == before;
    AffectedIsReported(before);
  }

  lemma CreateCounts<D(!new)>(x: Context<D>, k: Outcome<D>, st: State<D>)
    requires Tracks(x, k, st)
    ensures st.recordsAffected == Affected(st.log)
  {
  }

  // ---- two runs ----

  /** Every write adds one row; CREATE adds a table, and has no change count. */
  function Counting(): (e: RawEngine<int>)
    ensures EngineOk(e)
  {
    RawEngine(
      (_, _, _) => Native(true, None, None),
      (s: Statement, _, d: int) =>
        if s.readOnly then Execution([], false, d, None)
        else Execution([], false, d + 1, if s == CREATE then None else Some(1)))
  }

  const CREATE := Statement([2], 0, false, [])

  /** CREATE TABLE behind an INSERT: one row has been changed, two are reported. */
  lemma CreateCountsAgain()
    ensures
      var x := Context(Counting(), NO_PARAMETERS, false, false);
      var src := Cached([INSERT, CREATE], 0);
      && Orderly(x.engine, x.command, src, 0) && !CounterClear(x.engine, x.command, src, 0, 0)
      && Changed(Eager(x.engine, x.command, src, 0, 0).log) == 1
      && Close(x, Create(x, src, 0, 0).0).0.recordsAffected == 2
  {
    var x := Context(Counting(), NO_PARAMETERS, false, false);
    var src := Cached([INSERT, CREATE], 0);
    CreateReadsAgain();
    ChangedOnce();
    RecordsAffectedIsChanged(x, src, 0, 0, []);
  }

  lemma CreateReadsAgain()
    ensures
      var src := Cached([INSERT, CREATE], 0);
      && Orderly(Counting(), NO_PARAMETERS, src, 0) && !CounterClear(Counting(), NO_PARAMETERS, src, 0, 0)
      && Eager(Counting(), NO_PARAMETERS, src, 0, 0).log == [Write(INSERT, [], Some(1), 1), Write(CREATE, [], None, 1)]
  {
    var e, next := Counting(), Cached([INSERT, CREATE], 1);
    assert Bind([], [], true) == Ok([]);
    assert Eager(e, NO_PARAMETERS, next, 1, 1).log == [Write(CREATE, [], None, 1)];
    assert Orderly(e, NO_PARAMETERS, next, 1) && !CounterClear(e, NO_PARAMETERS, next, 1, 1);
  }

  lemma ChangedOnce()
    ensures
      var log := [Write(INSERT, [], Some(1), 1), Write(CREATE, [], None, 1)];
      Changed(log) == 1 && Stale(log) == 1
  {
    var one := [Write(INSERT, [], Some(1), 1)];
    var log := [Write(INSERT, [], Some(1), 1), Write(CREATE, [], None, 1)];
    assert log[..|log| - 1] == one && one[..|one| - 1] == [];
    assert Changed(one) == Changed([]) + 1 && Stale(one) == Stale([]);
  }

  /** An INSERT behind a query: a row has been inserted, `ExecuteNonQuery` reports -1. */
  lemma InsertNotReported()
    ensures
      var x := Context(Counting(), NO_PARAMETERS, false, false);
      var (reported, shut) := ExecuteNonQuery(x, Cached([SELECT, INSERT], 0), 0, 0);
      reported == Some(-1) && shut.log == [Write(INSERT, [], Some(1), 1)]
  {
    var x := Context(Counting(), NO_PARAMETERS, false, false);
    var src := Cached([SELECT, INSERT], 0);
    assert Bind([], [], true) == Ok([]);
    assert Eager(x.engine, x.command, Cached([SELECT, INSERT], 1), 0, 0).log == [Write(INSERT, [], Some(1), 1)];
    assert Orderly(x.engine, x.command, Cached([SELECT, INSERT], 1), 0);
    ExecuteNonQueryReports(x, src, 0, 0);
  }
}
