/** Reading a batch in which a statement fails: what a caller who goes on behind the error executes. */
module ReaderFailures {
  import opened Binding
  import opened Engine
  import opened ReaderModel
  import opened ReaderFrame
  import opened ReaderEager
  import opened ReaderRuns

  // ---- behind the error ----

  /** The writes of a batch when every statement that fails is passed over. */
  function Relentless<D(!new)>(e: Engine<D>, c: Command, src: Source, d: D, n: nat): seq<Write>
    decreases Left(src)
  {
    match PrepareAndBind(e, c, src, d, true)
    case Ready(s, slots, rest) =>
      var run := e.execute(s, slots, d);
      if run.error then Relentless(e, c, rest, d, n)
      else Logged(s, slots, run, n) + Relentless(e, c, rest, run.after, Counter(run, n))
    case _ => []
  }

  /** The writes behind the first statement that fails. */
  function WritesBehind<D(!new)>(e: Engine<D>, c: Command, src: Source, d: D, n: nat): seq<Write>
    decreases Left(src)
  {
    match PrepareAndBind(e, c, src, d, true)
    case Ready(s, slots, rest) =>
      var run := e.execute(s, slots, d);
      if run.error then Relentless(e, c, rest, d, n) else WritesBehind(e, c, rest, run.after, Counter(run, n))
    case _ => []
  }

  /** Also behind statements that fail: what returns rows is read-only, and all parameters can be bound. */
  predicate Tidy<D(!new)>(e: Engine<D>, c: Command, src: Source, d: D)
    decreases Left(src)
  {
    match PrepareAndBind(e, c, src, d, true)
    case Finished(_) => true
    case Threw(_) => PrepareFails(e, src, d)
    case Ready(s, slots, rest) =>
      var run := e.execute(s, slots, d);
      (s.columns > 0 ==> s.readOnly) && Tidy(e, c, rest, if run.error then d else run.after)
  }

  lemma {:induction false} TidyIsOrderly<D(!new)>(e: Engine<D>, c: Command, src: Source, d: D)
    requires Tidy(e, c, src, d)
    ensures Orderly(e, c, src, d)
    decreases Left(src)
  {
    match PrepareAndBind(e, c, src, d, true)
    case Ready(s, slots, rest) => if !e.execute(s, slots, d).error { TidyIsOrderly(e, c, rest, e.execute(s, slots, d).after); }
    case _ =>
  }

  lemma {:induction false} RelentlessSplits<D(!new)>(e: Engine<D>, c: Command, src: Source, d: D, n: nat)
    ensures Relentless(e, c, src, d, n) == Eager(e, c, src, d, n).log + WritesBehind(e, c, src, d, n)
    decreases Left(src)
  {
    match PrepareAndBind(e, c, src, d, true)
    case Ready(s, slots, rest) =>
      var run := e.execute(s, slots, d);
      if !run.error {
        RelentlessSplits(e, c, rest, run.after, Counter(run, n));
        Associates(Logged(s, slots, run, n), Eager(e, c, rest, run.after, Counter(run, n)).log,
                   WritesBehind(e, c, rest, run.after, Counter(run, n)));
      }
    case _ =>
  }

  // ---- any caller at all ----

  /** The writes so far and the relentless writes of what is left are `all`. */
  ghost predicate Aims<D(!new)>(x: Context<D>, all: seq<Write>, st: State<D>) {
    && !st.closed && Tidy(x.engine, x.command, st.source, st.db)
    && st.log + Relentless(x.engine, x.command, st.source, st.db, st.changes) == all
  }

  ghost predicate Below<D(!new)>(x: Context<D>, all: seq<Write>, st: State<D>) {
    if st.closed then st.log <= all else Steady(x, st) && Aims(x, all, st)
  }

  lemma TidyStep<D(!new)>(e: Engine<D>, c: Command, src: Source, d: D, n: nat, s: Statement, slots: Slots, rest: Source)
    requires Tidy(e, c, src, d) && PrepareAndBind(e, c, src, d, true) == Ready(s, slots, rest)
    ensures
      var run := e.execute(s, slots, d);
      && (s.columns > 0 ==> s.readOnly) && Tidy(e, c, rest, if run.error then d else run.after)
      && Relentless(e, c, src, d, n) ==
           if run.error then Relentless(e, c, rest, d, n)
           else Logged(s, slots, run, n) + Relentless(e, c, rest, run.after, Counter(run, n))
  {
  }

  lemma TakeQueryAims<D(!new)>(x: Context<D>, all: seq<Write>, st: State<D>, s: Statement, slots: Slots, src: Source)
    requires Aims(x, all, st) && PrepareAndBind(x.engine, x.command, st.source, st.db, true) == Ready(s, slots, src)
    requires s.columns > 0
    ensures Aims(x, all, Take(st, s, slots, src)) && s.readOnly
  {
    TidyStep(x.engine, x.command, st.source, st.db, st.changes, s, slots, src);
    ReadOnlyRun(x.engine, s, slots, st.db, st.changes);
    var rest := Relentless(x.engine, x.command, src, st.db, st.changes);
    assert [] + rest == rest;
  }

  lemma TakeFailingAims<D(!new)>(x: Context<D>, all: seq<Write>, st: State<D>, s: Statement, slots: Slots, src: Source)
    requires Aims(x, all, st) && PrepareAndBind(x.engine, x.command, st.source, st.db, true) == Ready(s, slots, src)
    requires x.engine.execute(s, slots, st.db).error
    ensures Aims(x, all, Take(st, s, slots, src))
  {
    TidyStep(x.engine, x.command, st.source, st.db, st.changes, s, slots, src);
  }

  /** A query taken, or a statement that fails. */
  lemma TakeAims<D(!new)>(x: Context<D>, all: seq<Write>, st: State<D>, s: Statement, slots: Slots, src: Source)
    requires Aims(x, all, st) && PrepareAndBind(x.engine, x.command, st.source, st.db, true) == Ready(s, slots, src)
    requires s.columns > 0 || x.engine.execute(s, slots, st.db).error
    ensures Aims(x, all, Take(st, s, slots, src)) && Steady(x, Take(st, s, slots, src))
  {
    if s.columns > 0 { TakeQueryAims(x, all, st, s, slots, src); } else { TakeFailingAims(x, all, st, s, slots, src); }
  }

  lemma PlainAims<D(!new)>(x: Context<D>, all: seq<Write>, st: State<D>, s: Statement, slots: Slots, src: Source)
    requires Aims(x, all, st) && PrepareAndBind(x.engine, x.command, st.source, st.db, true) == Ready(s, slots, src)
    requires s.columns == 0 && !x.engine.execute(s, slots, st.db).error
    ensures var (done, a) := RunToEnd(x, Take(st, s, slots, src));
      a.No? && Aims(x, all, done) && !ReleaseThrows(done) && st.log <= done.log
  {
    var run := x.engine.execute(s, slots, st.db);
    TidyStep(x.engine, x.command, st.source, st.db, st.changes, s, slots, src);
    PlainCounts(x, st, s, slots, src);
    Associates(st.log, Logged(s, slots, run, st.changes),
               Relentless(x.engine, x.command, src, run.after, Counter(run, st.changes)));
  }

  lemma EndAims<D(!new)>(x: Context<D>, all: seq<Write>, st: State<D>)
    requires Aims(x, all, st) && !PrepareAndBind(x.engine, x.command, st.source, st.db, true).Ready?
    ensures Aims(x, all, st.(source := PrepareAndBind(x.engine, x.command, st.source, st.db, true).src)) && st.log == all
  {
    var src := st.source;
    if src.Parse? && Prepare(x.engine, src.text, src.offset, st.db).Nothing? {
      NothingStays(x.engine, src.text, src.offset, st.db);
    }
  }

  lemma StopAims<D(!new)>(x: Context<D>, all: seq<Write>, st: State<D>, n: Next)
    requires Aims(x, all, st) && !ReleaseThrows(st)
    requires n == PrepareAndBind(x.engine, x.command, st.source, st.db, true) && !Plain(x.engine, n, st.db)
    ensures var next := Advance(x, st).0; Below(x, all, next) && !next.closed && st.log <= next.log
  {
    StopTurn(x, st, n);
    var free := Detached(AddChanges(st));
    if n.Ready? { TakeAims(x, all, free, n.statement, n.slots, n.src); } else { EndAims(x, all, free); }
  }

  lemma {:induction false} AdvanceAims<D(!new)>(x: Context<D>, all: seq<Write>, st: State<D>)
    requires Aims(x, all, st) && !ReleaseThrows(st)
    ensures var next := Advance(x, st).0; Below(x, all, next) && !next.closed && st.log <= next.log
    decreases Left(st.source)
  {
    var n := PrepareAndBind(x.engine, x.command, st.source, st.db, true);
    if Plain(x.engine, n, st.db) {
      var free := Detached(AddChanges(st));
      PlainTurn(x, st, n);
      PlainAims(x, all, free, n.statement, n.slots, n.src);
      AdvanceAims(x, all, RunToEnd(x, Take(free, n.statement, n.slots, n.src)).0);
    } else {
      StopAims(x, all, st, n);
    }
  }

  lemma {:induction false} DrainAims<D(!new)>(x: Context<D>, all: seq<Write>, st: State<D>)
    requires Aims(x, all, st)
    ensures st.log <= DrainRest(x, st).log <= all
    decreases Left(st.source)
  {
    TidyIsOrderly(x.engine, x.command, st.source, st.db);
    LaxIsStrict(x.engine, x.command, st.source, st.db);
    match PrepareAndBind(x.engine, x.command, st.source, st.db, true)
    case Ready(s, slots, src) =>
      var next := Take(st, s, slots, src);
      if s.columns > 0 || x.engine.execute(s, slots, st.db).error {
        TakeAims(x, all, st, s, slots, src);
        RunSteady(x, next);
        if !x.engine.execute(s, slots, st.db).error { DrainAims(x, all, AddChanges(RunToEnd(x, next).0)); }
      } else {
        PlainAims(x, all, st, s, slots, src);
        DrainAims(x, all, AddChanges(RunToEnd(x, next).0));
      }
    case _ => EndAims(x, all, st);
  }

  // ---- the calls ----

  lemma RunAims<D(!new)>(x: Context<D>, all: seq<Write>, st: State<D>)
    requires Below(x, all, st) && !st.closed && st.live.Some?
    ensures var done := RunToEnd(x, st).0; Aims(x, all, AddChanges(done)) && AddChanges(done).log == done.log == st.log
  {
    RunSteady(x, st);
  }

  lemma DrainAllAims<D(!new)>(x: Context<D>, all: seq<Write>, st: State<D>)
    requires Below(x, all, st) && !st.closed
    ensures st.log <= Drain(x, st).log <= all
  {
    if st.live.None? {
      DrainAims(x, all, st);
    } else {
      RunAims(x, all, st);
      DrainAims(x, all, AddChanges(RunToEnd(x, st).0));
    }
  }

  lemma CloseAims<D(!new)>(x: Context<D>, all: seq<Write>, st: State<D>)
    requires Below(x, all, st)
    ensures Close(x, st).0.closed && st.log <= Close(x, st).0.log <= all
  {
    if !st.closed { DrainAllAims(x, all, st); }
  }

  lemma FetchAims<D(!new)>(x: Context<D>, all: seq<Write>, st: State<D>)
    requires Below(x, all, st) && !st.closed
    ensures var next := Fetch(x, st).0; Below(x, all, next) && !next.closed && next.log == st.log
  {
    if st.live.Some? { StepSteady(x, st); }
  }

  lemma ReadRowAims<D(!new)>(x: Context<D>, all: seq<Write>, st: State<D>)
    requires Below(x, all, st) && !st.closed
    ensures var f := ReadRow(x, st).0;
      Below(x, all, f) && f.log == st.log && !f.closed && Below(x, all, AddChanges(f)) && AddChanges(f).log == st.log
  {
    FetchAims(x, all, st.(readStarted := true));
  }

  lemma ReadAims<D(!new)>(x: Context<D>, all: seq<Write>, st: State<D>)
    requires Below(x, all, st)
    ensures Below(x, all, Read(x, st).0) && st.log <= Read(x, st).0.log
  {
    if !st.closed {
      ReadRowAims(x, all, st);
      CloseAims(x, all, AddChanges(ReadRow(x, st).0));
    }
  }

  lemma NextResultAims<D(!new)>(x: Context<D>, all: seq<Write>, st: State<D>)
    requires Below(x, all, st) && !st.closed
    ensures Below(x, all, NextResult(x, st).0) && st.log <= NextResult(x, st).0.log
  {
    if ReleaseThrows(st) { ReleaseTurn(x, st); } else { AdvanceAims(x, all, st); }
  }

  lemma DoAims<D(!new)>(x: Context<D>, all: seq<Write>, st: State<D>, call: Call)
    requires Below(x, all, st)
    ensures Below(x, all, Do(x, st, call).0) && st.log <= Do(x, st, call).0.log
  {
    match call
    case CallHasRows => if !st.closed { FetchAims(x, all, st); }
    case CallRead => ReadAims(x, all, st);
    case CallNextResult => if !st.closed { NextResultAims(x, all, st); }
    case CallClose => CloseAims(x, all, st);
  }

  lemma {:induction false} DriveAims<D(!new)>(x: Context<D>, all: seq<Write>, st: State<D>, calls: seq<Call>)
    requires Below(x, all, st)
    ensures Below(x, all, Drive(x, st, calls)) && st.log <= Drive(x, st, calls).log
    decreases |calls|
  {
    if calls != [] {
      DoAims(x, all, st, calls[0]);
      DriveAims(x, all, Do(x, st, calls[0]).0, calls[1..]);
    }
  }

  /** The reader is on course, or at least as far as the first error. */
  ghost predicate AtLeast<D(!new)>(x: Context<D>, k: Outcome<D>, st: State<D>) {
    Tracks(x, k, st) || k.log <= st.log
  }

  lemma DoAtLeast<D(!new)>(x: Context<D>, k: Outcome<D>, all: seq<Write>, st: State<D>, call: Call)
    requires AtLeast(x, k, st) && Below(x, all, st)
    ensures AtLeast(x, k, Do(x, st, call).0) && Below(x, all, Do(x, st, call).0)
  {
    DoAims(x, all, st, call);
    if Tracks(x, k, st) && (call.CallNextResult? ==> st.closed || !Failing(x, st)) { DoTracks(x, k, st, call); }
  }

  lemma {:induction false} DriveAtLeast<D(!new)>(x: Context<D>, k: Outcome<D>, all: seq<Write>, st: State<D>, calls: seq<Call>)
    requires AtLeast(x, k, st) && Below(x, all, st)
    ensures AtLeast(x, k, Drive(x, st, calls)) && Below(x, all, Drive(x, st, calls))
    decreases |calls|
  {
    if calls != [] {
      DoAtLeast(x, k, all, st, calls[0]);
      DriveAtLeast(x, k, all, Do(x, st, calls[0]).0, calls[1..]);
    }
  }

  lemma CreateAims<D(!new)>(x: Context<D>, src: Source, d: D, n: nat)
    requires Tidy(x.engine, x.command, src, d)
    ensures
      var k := Eager(x.engine, x.command, src, d, n);
      var first := Create(x, src, d, n).0;
      Tracks(x, k, first) && Below(x, Relentless(x.engine, x.command, src, d, n), first)
  {
    var all := Relentless(x.engine, x.command, src, d, n);
    var fields := Fields(src, d, n);
    TidyIsOrderly(x.engine, x.command, src, d);
    CreateTracks(x, src, d, n);
    assert [] + all == all;
    AdvanceAims(x, all, fields);
    if Advance(x, fields).1.Thrown? { CloseAims(x, all, Advance(x, fields).0); }
  }

  /** Whatever the caller does, also behind errors: the writes lie between those of the batch, which
      ends at its first error, and those of all its statements that succeed. */
  lemma BetweenEagerAndRelentless<D(!new)>(x: Context<D>, src: Source, d: D, n: nat, calls: seq<Call>)
    requires Tidy(x.engine, x.command, src, d)
    ensures
      var shut := Close(x, Drive(x, Create(x, src, d, n).0, calls)).0;
      Eager(x.engine, x.command, src, d, n).log <= shut.log <= Relentless(x.engine, x.command, src, d, n)
  {
    var k := Eager(x.engine, x.command, src, d, n);
    var all := Relentless(x.engine, x.command, src, d, n);
    var first := Create(x, src, d, n).0;
    CreateAims(x, src, d, n);
    DriveAtLeast(x, k, all, first, calls);
    var st := Drive(x, first, calls);
    CloseAims(x, all, st);
    if Tracks(x, k, st) { CloseEnds(x, k, st); }
  }

  // ---- exactly ----

  lemma {:induction false} ClosedStays<D(!new)>(x: Context<D>, st: State<D>, calls: seq<Call>)
    requires st.closed
    ensures Drive(x, st, calls) == st && Close(x, st).0 == st
    decreases |calls|
  {
    if calls != [] {
      assert Do(x, st, calls[0]).0 == st;
      ClosedStays(x, st, calls[1..]);
    }
  }

  /** Once a reader is closed, every further call throws, but `Close`, and nothing happens any more. */
  lemma ClosedRefuses<D(!new)>(x: Context<D>, st: State<D>, before: seq<Call>, after: seq<Call>)
    ensures
      var shut := Close(x, Drive(x, st, before)).0;
      var end := Drive(x, shut, after);
      && end == shut && shut.closed && CurrentRow(end).None? && Close(x, end) == (end, No)
      && HasRows(x, end) == Read(x, end) == NextResult(x, end) == (end, Thrown)
  {
    var shut := Close(x, Drive(x, st, before)).0;
    CloseShuts(x, Drive(x, st, before));
    ClosedStays(x, shut, after);
  }

  /** A caller who asks for the next result until there is none executes all that succeeds. */
  lemma SkippingRunsAll<D(!new)>(x: Context<D>, src: Source, d: D, n: nat)
    requires !x.singleResult && Tidy(x.engine, x.command, src, d) && !Create(x, src, d, n).1.Thrown?
    ensures var first := Create(x, src, d, n).0;
      Close(x, Drive(x, first, Nexts(Skips(first)))).0.log == Relentless(x.engine, x.command, src, d, n)
  {
    var all := Relentless(x.engine, x.command, src, d, n);
    var first := Create(x, src, d, n).0;
    var end := Drive(x, first, Nexts(Skips(first)));
    CreateAims(x, src, d, n);
    AdvanceSkips(x, Fields(src, d, n));
    SkipAll(x, first, Skips(first));
    DriveAims(x, all, first, Nexts(Skips(first)));
    EndAims(x, all, end);
    ExhaustedCloses(x, end);
  }

  /** Errors stop the batch, exactly.  Every way of reading a batch, whatever the caller does when
      something throws, executes exactly the writes up to its first error, if and only if the error
      comes before the first query, so that there is no reader to go on with, or nothing behind the
      failing statement writes. */
  lemma ErrorsStopExactly<D(!new)>(x: Context<D>, src: Source, d: D, n: nat)
    requires !x.singleResult && Tidy(x.engine, x.command, src, d)
    ensures (forall calls :: ReadAnyWay(x, src, d, n, calls)) <==>
      FailsFirst(x.engine, x.command, src, d) || WritesBehind(x.engine, x.command, src, d, n) == []
  {
    var first := Create(x, src, d, n).0;
    var k := Eager(x.engine, x.command, src, d, n);
    CreateThrowsExactly(x, src, d, n);
    RelentlessSplits(x.engine, x.command, src, d, n);
    if Create(x, src, d, n).1.Thrown? {
      CreateAims(x, src, d, n);
      forall calls ensures ReadAnyWay(x, src, d, n, calls) {
        ClosedStays(x, first, calls);
        ClosedStays(x, first, []);
      }
    } else if WritesBehind(x.engine, x.command, src, d, n) == [] {
      forall calls ensures ReadAnyWay(x, src, d, n, calls) {
        BetweenEagerAndRelentless(x, src, d, n, calls);
      }
    } else {
      SkippingRunsAll(x, src, d, n);
      assert !ReadAnyWay(x, src, d, n, Nexts(Skips(first)));
    }
  }

  // ---- one failing statement ----

  /** The same reader, with the changes counted that the writes before it account for. */
  function Recounted<D(!new)>(st: State<D>): State<D> {
    Detached(AddChanges(st)).(recordsAffected := Affected(st.log))
  }

  lemma RecountedGoesOn<D(!new)>(x: Context<D>, st: State<D>)
    requires !st.closed && Orderly(x.engine, x.command, st.source, st.db)
    ensures
      var end := Close(x, Advance(x, Recounted(st)).0).0;
      end.log == st.log + Rest(x, st).log && end.db == Rest(x, st).db
  {
    var rest := Rest(x, st);
    var whole := Outcome(rest.db, st.log + rest.log, rest.results, rest.ok);
    assert rest.results == whole.results[0..];
    AdvanceTracks(x, whole, Recounted(st));
    CloseEnds(x, whole, Advance(x, Recounted(st)).0);
  }

  /** What `NextResult` does behind a statement that failed. */
  lemma GoesOn<D(!new)>(x: Context<D>, st: State<D>)
    requires !st.closed && !ReleaseThrows(st) && !x.singleResult && Orderly(x.engine, x.command, st.source, st.db)
    ensures
      var end := Close(x, NextResult(x, st).0).0;
      end.log == st.log + Rest(x, st).log && end.db == Rest(x, st).db
  {
    var free := Detached(AddChanges(st));
    assert [] + st.log == st.log;
    AdvanceFree(x, st);
    RecountedGoesOn(x, st);
    AdvanceShifts(x, [], false, free, Recounted(st));
    CloseShifts(x, [], false, Advance(x, free).0, Advance(x, Recounted(st)).0);
  }

  /** A caller at a failing statement, of whatever kind, who asks for the next result all the same,
      twice where the prepared handle reports its error once more: after `Close` what is behind it
      has been executed too.  The first of the two calls throws and executes nothing. */
  lemma RunsOnBehindFailure<D(!new)>(x: Context<D>, k: Outcome<D>, st: State<D>)
    requires Tracks(x, k, st) && !st.closed && Failing(x, st) && !x.singleResult
    requires Orderly(x.engine, x.command, st.source, st.db)
    ensures
      var again := if ReleaseThrows(st) then NextResult(x, st).0 else st;
      var end := Close(x, NextResult(x, again).0).0;
      && (ReleaseThrows(st) ==> NextResult(x, st).1.Thrown? && again.log == k.log)
      && end.log == k.log + Rest(x, st).log && end.db == Rest(x, st).db
  {
    GoesOn(x, if ReleaseThrows(st) then NextResult(x, st).0 else st);
  }
}
