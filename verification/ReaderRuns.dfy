/** Where deferred reading and eager execution part: an exact condition, what closing executes, and
    four runs. */
module ReaderRuns {
  import opened Options
  import opened Binding
  import opened Engine
  import opened ReaderModel
  import opened ReaderFrame
  import opened ReaderEager

  // ---- skipping every query ----

  predicate PlainOnly(log: seq<Write>) {
    forall w :: w in log ==> w.statement.columns == 0
  }

  /** No query has been stepped. */
  predicate Unstepped<D(!new)>(st: State<D>) {
    && !st.closed && PlainOnly(st.log)
    && (st.live.Some? && st.live.value.statement.columns > 0 ==> st.live.value.cursor.Fresh?)
  }

  /** Nothing more will be executed. */
  predicate Exhausted<D(!new)>(x: Context<D>, st: State<D>) {
    st.live.None? && !PrepareAndBind(x.engine, x.command, st.source, st.db, true).Ready?
    && PrepareAndBind(x.engine, x.command, st.source, st.db, true).src == st.source
    && !PrepareAndBind(x.engine, x.command, st.source, st.db, false).Ready?
  }

  /** An upper bound of the calls of `NextResult` until nothing is left. */
  function Skips<D(!new)>(st: State<D>): nat {
    2 * Left(st.source) + if st.live.Some? && st.live.value.cursor.Broken? then 2 else 1
  }

  /** Where no statement comes next, either none will ever, or one whose parameters cannot be
      bound has been passed. */
  lemma NoneReady<D(!new)>(e: Engine<D>, c: Command, src: Source, d: D)
    requires !PrepareAndBind(e, c, src, d, true).Ready?
    ensures var end := PrepareAndBind(e, c, src, d, true).src;
      || Left(end) < Left(src)
      || (!PrepareAndBind(e, c, end, d, true).Ready? && PrepareAndBind(e, c, end, d, true).src == end
          && !PrepareAndBind(e, c, end, d, false).Ready?)
  {
    if src.Parse? && Prepare(e, src.text, src.offset, d).Nothing? { NothingStays(e, src.text, src.offset, d); }
  }

  lemma LoggedPlain<D>(log: seq<Write>, s: Statement, slots: Slots, run: Execution<D>, n: nat)
    requires PlainOnly(log) && s.columns == 0
    ensures PlainOnly(log + Logged(s, slots, run, n))
  {
  }

  lemma {:induction false} AdvanceSkips<D(!new)>(x: Context<D>, st: State<D>)
    requires Unstepped(st) && !ReleaseThrows(st)
    ensures var next := Advance(x, st).0; Unstepped(next) && (Exhausted(x, next) || Skips(next) < Skips(st))
    decreases Left(st.source)
  {
    AdvanceTurn(x, st);
    var free := Detached(AddChanges(st));
    match PrepareAndBind(x.engine, x.command, st.source, st.db, true)
    case Ready(s, slots, src) =>
      if s.columns == 0 && !x.engine.execute(s, slots, st.db).error { SkipPlain(x, st, free, s, slots, src); }
    case _ => NoneReady(x.engine, x.command, st.source, st.db);
  }

  lemma {:induction false} SkipPlain<D(!new)>(x: Context<D>, st: State<D>, free: State<D>, s: Statement,
      slots: Slots, src: Source)
    requires Unstepped(free) && Left(src) < Left(st.source) && s.columns == 0
      && !x.engine.execute(s, slots, free.db).error
    requires Advance(x, st) == Advance(x, RunToEnd(x, Take(free, s, slots, src)).0)
    ensures var next := Advance(x, st).0; Unstepped(next) && (Exhausted(x, next) || Skips(next) < Skips(st))
    decreases Left(st.source), 0
  {
    PlainRuns(x, free, s, slots, src);
    LoggedPlain(free.log, s, slots, x.engine.execute(s, slots, free.db), free.changes);
    AdvanceSkips(x, RunToEnd(x, Take(free, s, slots, src)).0);
  }

  lemma NextResultSkips<D(!new)>(x: Context<D>, st: State<D>)
    requires Unstepped(st) && !x.singleResult
    ensures var next := NextResult(x, st).0;
      Unstepped(next) && (Exhausted(x, next) || Skips(next) < Skips(st)) && (Exhausted(x, st) ==> Exhausted(x, next))
  {
    if !ReleaseThrows(st) { AdvanceSkips(x, st); }
  }

  function Nexts(m: nat): seq<Call> { if m == 0 then [] else [CallNextResult] + Nexts(m - 1) }

  lemma {:induction false} SkipAll<D(!new)>(x: Context<D>, st: State<D>, m: nat)
    requires Unstepped(st) && !x.singleResult && (m >= Skips(st) || Exhausted(x, st))
    ensures var done := Drive(x, st, Nexts(m)); Unstepped(done) && Exhausted(x, done)
    decreases m
  {
    if m > 0 {
      NextResultSkips(x, st);
      assert Nexts(m)[1..] == Nexts(m - 1);
      SkipAll(x, Do(x, st, CallNextResult).0, m - 1);
    }
  }

  // ---- exactly the batches whose queries are read-only ----

  /** A batch that succeeds gives `NextResultCore` no reason to throw. */
  lemma {:induction false} SuccessAdvances<D(!new)>(x: Context<D>, st: State<D>)
    requires Eager(x.engine, x.command, st.source, st.db, st.changes).ok && !ReleaseThrows(st)
    ensures !Advance(x, st).1.Thrown?
    decreases Left(st.source)
  {
    AdvanceTurn(x, st);
    var free := Detached(AddChanges(st));
    match PrepareAndBind(x.engine, x.command, st.source, st.db, true)
    case Ready(s, slots, src) =>
      if s.columns == 0 {
        PlainRuns(x, free, s, slots, src);
        SuccessAdvances(x, RunToEnd(x, Take(free, s, slots, src)).0);
      }
    case _ =>
  }

  lemma {:induction false} DisorderShows<D(!new)>(e: Engine<D>, c: Command, src: Source, d: D, n: nat)
    requires Eager(e, c, src, d, n).ok && !Orderly(e, c, src, d)
    ensures !PlainOnly(Eager(e, c, src, d, n).log)
    decreases Left(src)
  {
    match PrepareAndBind(e, c, src, d, true)
    case Ready(s, slots, rest) =>
      var run := e.execute(s, slots, d);
      var o := Eager(e, c, rest, run.after, Counter(run, n));
      var log := Logged(s, slots, run, n) + o.log;
      if s.columns > 0 && !s.readOnly {
        assert Logged(s, slots, run, n)[0] in log;
      } else {
        DisorderShows(e, c, rest, run.after, Counter(run, n));
        var w :| w in o.log && w.statement.columns != 0;
        assert w in log;
      }
    case _ =>
  }

  lemma ExhaustedCloses<D(!new)>(x: Context<D>, st: State<D>)
    requires Exhausted(x, st) && !st.closed
    ensures Close(x, st).0.log == st.log
  {
  }

  /** A caller who only asks for the next result never executes the queries of the batch that write:
      all the writes are statements without columns, and if there is such a query, they are not
      those of the batch. */
  lemma SkippingLoses<D(!new)>(x: Context<D>, src: Source, d: D, n: nat)
    requires !x.singleResult && Eager(x.engine, x.command, src, d, n).ok && !Orderly(x.engine, x.command, src, d)
    ensures
      var first := Create(x, src, d, n).0;
      var shut := Close(x, Drive(x, first, Nexts(Skips(first)))).0;
      PlainOnly(shut.log) && shut.log != Eager(x.engine, x.command, src, d, n).log
  {
    var fields := Fields(src, d, n);
    SuccessAdvances(x, fields);
    AdvanceSkips(x, fields);
    var first := Create(x, src, d, n).0;
    SkipAll(x, first, Skips(first));
    ExhaustedCloses(x, Drive(x, first, Nexts(Skips(first))));
    DisorderShows(x.engine, x.command, src, d, n);
  }

  ghost predicate ReadAnyWay<D(!new)>(x: Context<D>, src: Source, d: D, n: nat, calls: seq<Call>) {
    Close(x, Drive(x, Create(x, src, d, n).0, calls)).0.log == Eager(x.engine, x.command, src, d, n).log
  }

  /** For a batch that succeeds: every way of reading it and closing the reader executes exactly
      its writes, once each and in order, if and only if its queries are all read-only. */
  lemma ExactlyReadOnlyQueries<D(!new)>(x: Context<D>, src: Source, d: D, n: nat)
    requires !x.singleResult && Eager(x.engine, x.command, src, d, n).ok
    ensures (forall calls :: ReadAnyWay(x, src, d, n, calls)) <==> Orderly(x.engine, x.command, src, d)
  {
    var first := Create(x, src, d, n).0;
    if Orderly(x.engine, x.command, src, d) {
      forall calls ensures ReadAnyWay(x, src, d, n, calls) {
        CreateTracks(x, src, d, n);
        SuccessIsDisciplined(x, Eager(x.engine, x.command, src, d, n), first, calls);
        DeferredEqualsEager(x, src, d, n, calls);
      }
    } else {
      SkippingLoses(x, src, d, n);
      assert !ReadAnyWay(x, src, d, n, Nexts(Skips(first)));
    }
  }

  // ---- what closing executes ----

  /** Without the check for missing parameters, as for EXPLAIN. */
  function Unchecked<D(!new)>(x: Context<D>): Context<D> {
    x.(command := x.command.(explain := true))
  }

  lemma NextUnchecked<D(!new)>(x: Context<D>, src: Source, d: D)
    ensures PrepareAndBind(x.engine, x.command, src, d, false) == PrepareAndBind(x.engine, Unchecked(x).command, src, d, true)
  {
  }

  /** Up to the first error every statement that returns rows is read-only. */
  predicate QueriesReadOnly<D(!new)>(e: Engine<D>, c: Command, src: Source, d: D)
    decreases Left(src)
  {
    match PrepareAndBind(e, c, src, d, true)
    case Ready(s, slots, rest) =>
      var run := e.execute(s, slots, d);
      (s.columns > 0 ==> s.readOnly) && (run.error || QueriesReadOnly(e, c, rest, run.after))
    case _ => true
  }

  /** Draining a statement: what it leaves, and whether the drain goes on. */
  lemma DrainTurn<D(!new)>(x: Context<D>, st: State<D>, s: Statement, slots: Slots, src: Source)
    requires s.columns > 0 ==> s.readOnly
    ensures
      var run := x.engine.execute(s, slots, st.db);
      var (done, a) := RunToEnd(x, Take(st, s, slots, src));
      && (a.Thrown? <==> run.error) && done.closed == st.closed && AddChanges(done).source == src
      && (a.Thrown? ==> done.log == st.log && done.db == st.db)
      && (!a.Thrown? ==>
            && AddChanges(done).db == run.after && AddChanges(done).changes == Counter(run, st.changes)
            && AddChanges(done).log == st.log + Logged(s, slots, run, st.changes))
  {
    if s.columns > 0 {
      ReadOnlyRun(x.engine, s, slots, st.db, st.changes);
      RunSteady(x, Take(st, s, slots, src));
      assert st.log + [] == st.log;
    } else {
      PlainRuns(x, st, s, slots, src);
    }
  }

  /** Draining executes what is left, up to its first error, without the check for missing parameters. */
  lemma {:induction false} DrainRuns<D(!new)>(x: Context<D>, st: State<D>)
    requires QueriesReadOnly(x.engine, Unchecked(x).command, st.source, st.db)
    ensures
      var rest := Rest(Unchecked(x), st);
      DrainRest(x, st).log == st.log + rest.log && DrainRest(x, st).db == rest.db
    decreases Left(st.source)
  {
    NextUnchecked(x, st.source, st.db);
    var n := PrepareAndBind(x.engine, x.command, st.source, st.db, false);
    if n.Ready? {
      DrainTurn(x, st, n.statement, n.slots, n.src);
      var run := x.engine.execute(n.statement, n.slots, st.db);
      if !run.error {
        var done := AddChanges(RunToEnd(x, Take(st, n.statement, n.slots, n.src)).0);
        DrainRuns(x, done);
        Associates(st.log, Logged(n.statement, n.slots, run, st.changes), Rest(Unchecked(x), done).log);
      }
    }
  }

  lemma Associates(a: seq<Write>, b: seq<Write>, c: seq<Write>)
    ensures a + (b + c) == a + b + c
  {
  }

  /** Closing executes nothing if the current statement fails; otherwise all that is left, up to its
      first error, but without the check for missing parameters: a statement that `NextResult` would
      refuse is executed with NULL for them, and so are the statements behind one that has been
      refused. */
  lemma CloseRunsUnchecked<D(!new)>(x: Context<D>, st: State<D>)
    requires !st.closed && Steady(x, st)
    requires !Failing(x, st) ==> QueriesReadOnly(x.engine, Unchecked(x).command, st.source, st.db)
    ensures
      var rest := Rest(Unchecked(x), st);
      if Failing(x, st) then Close(x, st).0.log == st.log && Close(x, st).0.db == st.db
      else Close(x, st).0.log == st.log + rest.log && Close(x, st).0.db == rest.db
  {
    if st.live.None? {
      DrainRuns(x, st);
    } else {
      RunSteady(x, st);
      if !Failing(x, st) {
        NothingToCount(x, RunToEnd(x, st).0);
        DrainRuns(x, RunToEnd(x, st).0);
      }
    }
  }

  // ---- four runs ----

  /** An engine over a counter: the empty query fails, any other finds nothing; a writing query
      returns one row, and every write adds one. */
  function Demo(): (e: RawEngine<int>)
    ensures EngineOk(e)
  {
    RawEngine(
      (_, _, _) => Native(true, None, None),
      (s: Statement, _, d: int) =>
        if s.readOnly then Execution([], s.columns > 0 && s.sql == [], d, None)
        else Execution(if s.columns > 0 then [[]] else [], false, d + 1, Some(1)))
  }

  const FAILING := Statement([], 1, true, [])
  const SELECT := Statement([1], 1, true, [])
  const RETURNING := Statement([], 1, false, [])
  const INSERT := Statement([], 0, false, [])
  const INSERT_NAMED := Statement([], 0, false, ["@p"])
  const NO_PARAMETERS := Command([], false)

  /** Asking for the next result of a query that fails goes on behind the error: the batch stops
      before its INSERT, the reader executes it. */
  lemma SkippedFailure()
    ensures
      var x := Context(Demo(), NO_PARAMETERS, false, false);
      var src := Cached([FAILING, INSERT], 0);
      && Orderly(x.engine, x.command, src, 0) && Eager(x.engine, x.command, src, 0, 0).log == []
      && !Disciplined(x, Create(x, src, 0, 0).0, [CallNextResult])
      && Close(x, Drive(x, Create(x, src, 0, 0).0, [CallNextResult])).0.log == [Write(INSERT, [], Some(1), 1)]
  {
    var x := Context(Demo(), NO_PARAMETERS, false, false);
    var src := Cached([FAILING, INSERT], 0);
    var first := Create(x, src, 0, 0).0;
    assert Bind([], [], true) == Ok([]);
    assert first == Fields(src, 0, 0).(source := Cached([FAILING, INSERT], 1), live := Some(Live(FAILING, [], Fresh)));
    assert Drive(x, first, [CallNextResult]) == NextResult(x, first).0;
    InsertRuns(x, first, Detached(first), 2);
  }

  lemma InsertRuns(x: Context<int>, st: State<int>, free: State<int>, end: nat)
    requires x.engine == Demo() && x.command == NO_PARAMETERS && !st.closed && !x.singleResult && !ReleaseThrows(st)
    requires st.source.Cached? && st.source.index + 1 == |st.source.statements| == end
      && st.source.statements[end - 1] == INSERT
    requires AddChanges(st) == st && free == Detached(st)
    ensures Close(x, NextResult(x, st).0).0.log == st.log + [Write(INSERT, [], Some(1), 1)]
  {
    assert Bind([], [], true) == Ok([]);
    var src := Cached(st.source.statements, end);
    AdvanceTurn(x, st);
    PlainRuns(x, free, INSERT, [], src);
    AdvanceTurn(x, RunToEnd(x, Take(free, INSERT, [], src)).0);
  }

  /** A statement whose parameter has no value is passed over: creating the reader throws, and its
      disposal executes the statement after it. */
  lemma BindFailureRunsOn()
    ensures
      var x := Context(Demo(), NO_PARAMETERS, false, false);
      var src := Cached([INSERT_NAMED, INSERT], 0);
      && Eager(x.engine, x.command, src, 0, 0) == Outcome(0, [], [], false)
      && Create(x, src, 0, 0).1.Thrown?
      && Create(x, src, 0, 0).0.log == [Write(INSERT, [], Some(1), 1)]
  {
    var x := Context(Demo(), NO_PARAMETERS, false, false);
    var src := Cached([INSERT_NAMED, INSERT], 0);
    assert Bind(["@p"], [], true).Err? by { assert Unbound(["@p"])[0].None?; }
    var thrown := Fields(src, 0, 0).(source := Cached([INSERT_NAMED, INSERT], 1));
    assert Advance(x, Fields(src, 0, 0)) == (thrown, Thrown);
    assert Bind([], [], false) == Ok([]);
    var rest := Cached([INSERT_NAMED, INSERT], 2);
    PlainRuns(x, thrown, INSERT, [], rest);
    var done := RunToEnd(x, Take(thrown, INSERT, [], rest)).0;
    assert Drain(x, thrown) == DrainRest(x, thrown) == DrainRest(x, AddChanges(done));
  }

  /** A writing query that has been read to its end is stepped again when the reader closes. */
  lemma ReturningRunsTwice()
    ensures
      var x := Context(Demo(), NO_PARAMETERS, false, false);
      var src := Cached([RETURNING], 0);
      var st := Drive(x, Create(x, src, 0, 0).0, [CallRead, CallRead]);
      && Eager(x.engine, x.command, src, 0, 0).log == [Write(RETURNING, [], Some(1), 1)]
      && Close(x, st).0.log == [Write(RETURNING, [], Some(1), 1), Write(RETURNING, [], Some(1), 1)]
  {
    var x := Context(Demo(), NO_PARAMETERS, false, false);
    var src := Cached([RETURNING], 0);
    var first := Create(x, src, 0, 0).0;
    assert Bind([], [], true) == Ok([]) == Bind([], [], false);
    assert first == Fields(src, 0, 0).(source := Cached([RETURNING], 1), live := Some(Live(RETURNING, [], Fresh)));
    ReadsReturning(x, first);
    RunsAgain(x, Drive(x, first, [CallRead, CallRead]));
  }

  lemma ReadsReturning(x: Context<int>, first: State<int>)
    requires x == Context(Demo(), NO_PARAMETERS, false, false)
    requires first == Fields(Cached([RETURNING], 1), 0, 0).(live := Some(Live(RETURNING, [], Fresh)))
    ensures var st := Drive(x, first, [CallRead, CallRead]);
      && !st.closed && st.live == Some(Live(RETURNING, [], Done)) && st.source == first.source
      && st.log == [Write(RETURNING, [], Some(1), 1)]
  {
    var one := Read(x, first).0;
    var run := Execution([[]], false, 1, Some(1));
    assert one == first.(readStarted := true, hasRow := true, db := 1, log := [Write(RETURNING, [], Some(1), 1)],
                         live := Some(Live(RETURNING, [], Rows(run, 1))));
    var two := Read(x, one).0;
    assert [CallRead, CallRead][1..] == [CallRead];
    assert Drive(x, one, [CallRead]) == Drive(x, two, []);
    assert Drive(x, first, [CallRead, CallRead]) == Drive(x, one, [CallRead]);
  }

  lemma RunsAgain(x: Context<int>, st: State<int>)
    requires x.engine == Demo() && !st.closed && st.live == Some(Live(RETURNING, [], Done))
      && st.source == Cached([RETURNING], 1)
    ensures Close(x, st).0.log == st.log + [Write(RETURNING, [], Some(1), 1)]
  {
    var again := Step(x, st).0;
    assert RunToEnd(x, st) == RunToEnd(x, again) == Step(x, again);
  }

  /** A caller who closes the reader at its first query has the INSERT behind it executed with NULL
      for a parameter that was never given; one who asks for the next result gets an error. */
  lemma MissingParameterRuns()
    ensures
      var x := Context(Demo(), NO_PARAMETERS, false, false);
      var first := Create(x, Cached([SELECT, INSERT_NAMED], 0), 0, 0).0;
      && NextResult(x, first).1.Thrown? && NextResult(x, first).0.log == []
      && Close(x, first).0.log == [Write(INSERT_NAMED, [None], Some(1), 1)]
  {
    var x := Context(Demo(), NO_PARAMETERS, false, false);
    var src := Cached([SELECT, INSERT_NAMED], 0);
    var next, end := Cached([SELECT, INSERT_NAMED], 1), Cached([SELECT, INSERT_NAMED], 2);
    var first := Create(x, src, 0, 0).0;
    assert Bind([], [], true) == Ok([]) == Bind([], [], false);
    assert first == Fields(src, 0, 0).(source := next, live := Some(Live(SELECT, [], Fresh)));
    assert Unbound(["@p"]) == [None];
    assert Bind(["@p"], [], false) == Ok([None]) && Bind(["@p"], [], true).Err?;
    EndsThere(x, end);
    var c := Unchecked(x).command;
    assert PrepareAndBind(x.engine, c, next, 0, true) == Ready(INSERT_NAMED, [None], end);
    assert Eager(x.engine, c, end, 1, 1) == Outcome(1, [], [], true);
    assert Rest(Unchecked(x), first).log == [Write(INSERT_NAMED, [None], Some(1), 1)];
    CloseRunsUnchecked(x, first);
  }

  lemma EndsThere(x: Context<int>, end: Source)
    requires x.engine == Demo() && end.Cached? && end.index == |end.statements|
    ensures forall d: int, n: nat :: Eager(x.engine, Unchecked(x).command, end, d, n) == Outcome(d, [], [], true)
    ensures forall d: int :: QueriesReadOnly(x.engine, Unchecked(x).command, end, d)
  {
  }
}
