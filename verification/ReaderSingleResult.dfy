/** Readers created for a single result: they never move on, and closing executes the rest. */
module ReaderSingleResult {
  import opened Options
  import opened Binding
  import opened Engine
  import opened ReaderModel
  import opened ReaderFrame
  import opened ReaderEager
  import opened ReaderRuns

  // ---- draining any batch that succeeds ----

  lemma {:induction false} RowsRun<D(!new)>(x: Context<D>, st: State<D>, run: Execution<D>, pos: nat)
    requires st.live.Some? && st.live.value.cursor == Rows(run, pos) && !run.error
    ensures RunToEnd(x, st) == (WithCursor(st.(changes := Counter(run, st.changes)), Done), No)
    decreases StepsLeft(x, st)
  {
    var (next, a) := Step(x, st);
    if a.Yes? { RowsRun(x, next, run, pos + 1); }
  }

  /** A statement that succeeds, a query that writes included, takes effect once when it is run from
      the start to its end. */
  lemma FreshRuns<D(!new)>(x: Context<D>, st: State<D>)
    requires st.live.Some? && st.live.value.cursor.Fresh? && !Executed(x, st).error
    ensures
      var run := Executed(x, st);
      RunToEnd(x, st) ==
        (WithCursor(st.(db := run.after, changes := Counter(run, st.changes),
                        log := st.log + Logged(st.live.value.statement, st.live.value.slots, run, st.changes)), Done), No)
  {
    var (next, a) := Step(x, st);
    if a.Yes? { RowsRun(x, next, Executed(x, st), 1); }
  }

  /** What executing the next statement of a batch that succeeds leaves. */
  lemma RestStep<D(!new)>(e: Engine<D>, c: Command, src: Source, d: D, n: nat, s: Statement, slots: Slots, rest: Source)
    requires Eager(e, c, src, d, n).ok && PrepareAndBind(e, c, src, d, true) == Ready(s, slots, rest)
    ensures
      var run := e.execute(s, slots, d);
      var o := Eager(e, c, rest, run.after, Counter(run, n));
      && !run.error && o.ok && forall log: seq<Write> ::
           log + Eager(e, c, src, d, n).log == log + Logged(s, slots, run, n) + o.log
  {
    var run := e.execute(s, slots, d);
    var o := Eager(e, c, rest, run.after, Counter(run, n));
    forall log: seq<Write> ensures log + (Logged(s, slots, run, n) + o.log) == log + Logged(s, slots, run, n) + o.log {}
  }

  /** A statement run from its start to its end, and counted. */
  lemma FreshCounts<D(!new)>(x: Context<D>, st: State<D>, s: Statement, slots: Slots, src: Source)
    requires !x.engine.execute(s, slots, st.db).error
    ensures
      var run := x.engine.execute(s, slots, st.db);
      var done := AddChanges(RunToEnd(x, Take(st, s, slots, src)).0);
      && RunToEnd(x, Take(st, s, slots, src)).1.No? && done.source == src && done.db == run.after
      && done.changes == Counter(run, st.changes) && done.log == st.log + Logged(s, slots, run, st.changes)
  {
    FreshRuns(x, Take(st, s, slots, src));
  }

  lemma {:induction false} DrainsAll<D(!new)>(x: Context<D>, st: State<D>)
    requires Rest(x, st).ok
    ensures DrainRest(x, st).log == st.log + Rest(x, st).log
    decreases Left(st.source)
  {
    var n := PrepareAndBind(x.engine, x.command, st.source, st.db, true);
    NextLax(x.engine, x.command, st.source, st.db);
    if n.Ready? {
      RestStep(x.engine, x.command, st.source, st.db, st.changes, n.statement, n.slots, n.src);
      FreshCounts(x, st, n.statement, n.slots, n.src);
      DrainsAll(x, AddChanges(RunToEnd(x, Take(st, n.statement, n.slots, n.src)).0));
    }
  }

  lemma NextLax<D(!new)>(e: Engine<D>, c: Command, src: Source, d: D)
    requires !PrepareAndBind(e, c, src, d, true).Threw?
    ensures PrepareAndBind(e, c, src, d, false) == PrepareAndBind(e, c, src, d, true)
  {
  }

  // ---- one query, and the rest ----

  /** The current query is read-only and succeeds; the writes so far and those of what is left are `all`. */
  ghost predicate Pending<D(!new)>(x: Context<D>, all: seq<Write>, st: State<D>) {
    if st.closed then st.log == all
    else Steady(x, st) && !Failing(x, st) && Rest(x, st).ok && st.log + Rest(x, st).log == all
  }

  lemma ClosePending<D(!new)>(x: Context<D>, all: seq<Write>, st: State<D>)
    requires Pending(x, all, st)
    ensures Close(x, st).0.closed && Close(x, st).0.log == all
  {
    if !st.closed {
      if st.live.None? {
        DrainsAll(x, st);
      } else {
        RunSteady(x, st);
        var done := RunToEnd(x, st).0;
        NothingToCount(x, done);
        DrainsAll(x, done);
      }
    }
  }

  lemma FetchPending<D(!new)>(x: Context<D>, all: seq<Write>, st: State<D>)
    requires Pending(x, all, st) && !st.closed
    ensures Pending(x, all, Fetch(x, st).0) && !Fetch(x, st).0.closed
  {
    if st.live.Some? { StepSteady(x, st); }
  }

  lemma DoPending<D(!new)>(x: Context<D>, all: seq<Write>, st: State<D>, call: Call)
    requires Pending(x, all, st) && x.singleResult
    ensures Pending(x, all, Do(x, st, call).0)
  {
    match call
    case CallHasRows => if !st.closed { FetchPending(x, all, st); }
    case CallRead =>
      if !st.closed {
        FetchPending(x, all, st.(readStarted := true));
        var f := ReadRow(x, st).0;
        NothingToCount(x, f);
        ClosePending(x, all, f);
      }
    case CallNextResult =>
    case CallClose => ClosePending(x, all, st);
  }

  lemma {:induction false} DrivePending<D(!new)>(x: Context<D>, all: seq<Write>, st: State<D>, calls: seq<Call>)
    requires Pending(x, all, st) && x.singleResult
    ensures Pending(x, all, Drive(x, st, calls))
    decreases |calls|
  {
    if calls != [] {
      DoPending(x, all, st, calls[0]);
      DrivePending(x, all, Do(x, st, calls[0]).0, calls[1..]);
    }
  }

  // ---- the first query decides ----

  lemma {:induction false} AdvancePending<D(!new)>(x: Context<D>, st: State<D>)
    requires Rest(x, st).ok && !ReleaseThrows(st) && !st.closed
    ensures
      var next := Advance(x, st).0;
      (next.live.Some? ==> next.live.value.statement.readOnly) ==> Pending(x, st.log + Rest(x, st).log, next)
    decreases Left(st.source)
  {
    AdvanceTurn(x, st);
    var n := PrepareAndBind(x.engine, x.command, st.source, st.db, true);
    var free := Detached(AddChanges(st));
    if n.Ready? {
      RestStep(x.engine, x.command, st.source, st.db, st.changes, n.statement, n.slots, n.src);
      if n.statement.columns > 0 {
        QueryPending(x, free, n.statement, n.slots, n.src);
      } else {
        PlainRuns(x, free, n.statement, n.slots, n.src);
        AdvancePending(x, RunToEnd(x, Take(free, n.statement, n.slots, n.src)).0);
      }
    } else {
      FinishedStays(x.engine, x.command, st.source, st.db, st.changes);
    }
  }

  lemma QueryPending<D(!new)>(x: Context<D>, st: State<D>, s: Statement, slots: Slots, src: Source)
    requires Rest(x, st).ok && !st.closed && PrepareAndBind(x.engine, x.command, st.source, st.db, true) == Ready(s, slots, src)
    requires s.columns > 0
    ensures s.readOnly ==> Pending(x, st.log + Rest(x, st).log, Take(st, s, slots, src))
  {
    if s.readOnly {
      var next := Take(st, s, slots, src);
      RestStep(x.engine, x.command, st.source, st.db, st.changes, s, slots, src);
      ReadOnlyRun(x.engine, s, slots, st.db, st.changes);
      assert next.log + [] == next.log;
      assert Steady(x, next) && !Failing(x, next) && Rest(x, next).ok;
      assert next.log + Rest(x, next).log == st.log + Rest(x, st).log;
    }
  }

  /** With a reader for a single result only the first query has to be read-only: then every way of
      reading a batch that succeeds executes exactly its writes, the queries behind the first one
      included that write. */
  lemma FirstQueryDecides<D(!new)>(x: Context<D>, src: Source, d: D, n: nat, calls: seq<Call>)
    requires x.singleResult && Eager(x.engine, x.command, src, d, n).ok
    requires
      var first := Create(x, src, d, n).0;
      first.live.Some? ==> first.live.value.statement.readOnly
    ensures ReadAnyWay(x, src, d, n, calls)
  {
    var k := Eager(x.engine, x.command, src, d, n);
    var fields := Fields(src, d, n);
    var first := Create(x, src, d, n).0;
    SuccessAdvances(x, fields);
    AdvancePending(x, fields);
    assert [] + k.log == k.log;
    DrivePending(x, k.log, first, calls);
    ClosePending(x, k.log, Drive(x, first, calls));
  }

  /** A query that writes and has been read to its end is executed once more by `Close`, before what
      is left. */
  lemma ReadToEndRunsAgain<D(!new)>(x: Context<D>, st: State<D>)
    requires !st.closed && st.live.Some? && st.live.value.cursor.Done? && !st.live.value.statement.readOnly
    requires !Executed(x, st).error
    ensures
      var l, run := st.live.value, Executed(x, st);
      st.log + [Write(l.statement, l.slots, run.changes, Counter(run, st.changes))] <= Close(x, st).0.log
  {
    DoneRuns(x, st);
    DrainGrows(x, AddChanges(RunToEnd(x, st).0));
  }

  lemma DoneRuns<D(!new)>(x: Context<D>, st: State<D>)
    requires st.live.Some? && st.live.value.cursor.Done? && !Executed(x, st).error
    ensures RunToEnd(x, st).1.No?
    ensures RunToEnd(x, st).0.log == st.log + Logged(st.live.value.statement, st.live.value.slots, Executed(x, st), st.changes)
  {
    var (next, a) := Step(x, st);
    if a.Yes? { RowsRun(x, next, Executed(x, st), 1); }
  }

  // ---- a first query that writes and does no harm ----

  /** An engine over a table that holds one row at most: the query inserts it, and fails from then on. */
  function Unique(): (e: RawEngine<int>)
    ensures EngineOk(e)
  {
    RawEngine(
      (_, _, _) => Native(true, None, None),
      (s: Statement, _, d: int) =>
        if s.readOnly || s.columns == 0 then Execution([], false, d, None)
        else if d == 0 then Execution([[]], false, 1, Some(1))
        else Execution([], true, d, None))
  }

  const INSERTED := Write(RETURNING, [], Some(1), 1)

  /** The row has been inserted once, or will be. */
  predicate InsertsOnce(st: State<int>) {
    if st.closed then st.log == [INSERTED]
    else
      && st.live.Some? && st.live.value.statement == RETURNING && st.live.value.slots == []
      && st.source == Cached([RETURNING], 1)
      && if st.live.value.cursor.Fresh? then st.db == 0 && st.log == []
         else st.db == 1 && st.log == [INSERTED] && (st.live.value.cursor.Rows? ==> !st.live.value.cursor.run.error)
  }

  lemma StepInserts(x: Context<int>, st: State<int>)
    requires x.engine == Unique() && InsertsOnce(st) && !st.closed
    ensures InsertsOnce(Step(x, st).0) && !Step(x, st).0.closed
    ensures !Step(x, st).0.live.value.cursor.Fresh?
  {
  }

  lemma {:induction false} RunInserts(x: Context<int>, st: State<int>)
    requires x.engine == Unique() && InsertsOnce(st) && !st.closed
    ensures var done := RunToEnd(x, st).0; InsertsOnce(done) && !done.closed && !done.live.value.cursor.Fresh?
    decreases StepsLeft(x, st)
  {
    StepInserts(x, st);
    var (next, a) := Step(x, st);
    if a.Yes? { RunInserts(x, next); }
  }

  lemma CloseInserts(x: Context<int>, st: State<int>)
    requires x.engine == Unique() && InsertsOnce(st)
    ensures Close(x, st).0.closed && Close(x, st).0.log == [INSERTED]
  {
    if !st.closed {
      RunInserts(x, st);
      var (done, a) := RunToEnd(x, st);
      var counted := AddChanges(done);
      assert DrainRest(x, counted) == counted.(live := None);
    }
  }

  lemma FetchInserts(x: Context<int>, st: State<int>)
    requires x.engine == Unique() && InsertsOnce(st) && !st.closed
    ensures InsertsOnce(Fetch(x, st).0) && !Fetch(x, st).0.closed
  {
    StepInserts(x, st);
  }

  lemma DoInserts(x: Context<int>, st: State<int>, call: Call)
    requires x.engine == Unique() && x.singleResult && InsertsOnce(st)
    ensures InsertsOnce(Do(x, st, call).0)
  {
    match call
    case CallHasRows => if !st.closed { FetchInserts(x, st); }
    case CallRead =>
      if !st.closed {
        FetchInserts(x, st.(readStarted := true));
        CloseInserts(x, AddChanges(ReadRow(x, st).0));
      }
    case CallNextResult =>
    case CallClose => CloseInserts(x, st);
  }

  lemma {:induction false} DriveInserts(x: Context<int>, st: State<int>, calls: seq<Call>)
    requires x.engine == Unique() && x.singleResult && InsertsOnce(st)
    ensures InsertsOnce(Drive(x, st, calls))
    decreases |calls|
  {
    if calls != [] {
      DoInserts(x, st, calls[0]);
      DriveInserts(x, Do(x, st, calls[0]).0, calls[1..]);
    }
  }

  /** The condition of FirstQueryDecides is not necessary: an INSERT .. RETURNING whose repetition fails
      is executed once in every way of reading. */
  lemma WritingOnce(calls: seq<Call>, singleRow: bool)
    ensures
      var x := Context(Unique(), NO_PARAMETERS, true, singleRow);
      var src := Cached([RETURNING], 0);
      && Eager(x.engine, x.command, src, 0, 0).ok
      && Create(x, src, 0, 0).0.live == Some(Live(RETURNING, [], Fresh))
      && ReadAnyWay(x, src, 0, 0, calls)
  {
    var x := Context(Unique(), NO_PARAMETERS, true, singleRow);
    var src := Cached([RETURNING], 0);
    assert Bind([], [], true) == Ok([]);
    var first := Create(x, src, 0, 0).0;
    assert first == Fields(src, 0, 0).(source := Cached([RETURNING], 1), live := Some(Live(RETURNING, [], Fresh)));
    DriveInserts(x, first, calls);
    CloseInserts(x, Drive(x, first, calls));
    assert Eager(x.engine, x.command, src, 0, 0).log == [INSERTED];
  }
}
