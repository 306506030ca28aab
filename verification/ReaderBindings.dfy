/** Reading a batch in which anything may fail, the binding of parameters included: exactly when
    nothing behind its first error is executed. */
module ReaderBindings {
  import opened Options
  import opened Binding
  import opened Engine
  import opened ReaderModel
  import opened ReaderFrame
  import opened ReaderEager
  import opened ReaderRuns

  // ---- conditions on a batch ----

  /** The command without the check for missing parameters, as `Close` uses it. */
  function Lax(c: Command): Command { c.(explain := true) }

  /** Nothing is written up to the next error. */
  predicate WritesNothing<D(!new)>(e: Engine<D>, c: Command, src: Source, d: D)
    decreases Left(src)
  {
    match PrepareAndBind(e, c, src, d, true)
    case Ready(s, slots, rest) =>
      var run := e.execute(s, slots, d);
      run.error || (s.readOnly && WritesNothing(e, c, rest, run.after))
    case _ => true
  }

  /** Also behind errors, and with or without the check: what returns rows is read-only. */
  predicate Tame<D(!new)>(e: Engine<D>, c: Command, src: Source, d: D)
    decreases Left(src)
  {
    QueriesReadOnly(e, Lax(c), src, d) &&
      match PrepareAndBind(e, c, src, d, true)
      case Finished(_) => true
      case Threw(rest) => PrepareFails(e, src, d) || Tame(e, c, rest, d)
      case Ready(s, slots, rest) =>
        var run := e.execute(s, slots, d);
        (s.columns > 0 ==> s.readOnly) && Tame(e, c, rest, if run.error then d else run.after)
  }

  /** Nothing is written behind the first error, neither by a caller who goes on nor by `Close`, which
      does not check for missing parameters.  `past` says that an error has been passed; `stop`, that
      since then there has been a place where the reader may be closed. */
  predicate NothingBehind<D(!new)>(e: Engine<D>, c: Command, src: Source, d: D, past: bool, stop: bool)
    decreases Left(src)
  {
    match PrepareAndBind(e, c, src, d, true)
    case Finished(_) => true
    case Threw(rest) =>
      || PrepareFails(e, src, d)
      || (&& (stop ==> WritesNothing(e, Lax(c), src, d))
          && WritesNothing(e, Lax(c), rest, d)
          && (past || stop ==> NothingBehind(e, c, rest, d, true, true)))
    case Ready(s, slots, rest) =>
      var run := e.execute(s, slots, d);
      if run.error then past || stop || s.columns > 0 ==> NothingBehind(e, c, rest, d, true, false)
      else (past ==> s.readOnly) && NothingBehind(e, c, rest, run.after, past, stop || s.columns > 0)
  }

  lemma {:induction false} SilentExactly<D(!new)>(e: Engine<D>, c: Command, src: Source, d: D, n: nat)
    ensures Eager(e, c, src, d, n).log == [] <==> WritesNothing(e, c, src, d)
    decreases Left(src)
  {
    match PrepareAndBind(e, c, src, d, true)
    case Ready(s, slots, rest) =>
      var run := e.execute(s, slots, d);
      if !run.error { SilentExactly(e, c, rest, run.after, Counter(run, n)); }
    case _ =>
  }

  /** Without the check what came next comes next, and nothing else does where nothing compiles. */
  lemma LaxNext<D(!new)>(e: Engine<D>, c: Command, src: Source, d: D)
    ensures
      var n := PrepareAndBind(e, c, src, d, true);
      n.Ready? || n.Finished? || PrepareFails(e, src, d) ==> PrepareAndBind(e, Lax(c), src, d, true) == n
  {
  }

  /** Where the reader may be closed, closing executes what is left of the batch, or nothing behind an
      error. */
  lemma {:induction false} LaxRemains<D(!new)>(e: Engine<D>, c: Command, src: Source, d: D, n: nat, past: bool)
    requires NothingBehind(e, c, src, d, past, true)
    ensures Eager(e, Lax(c), src, d, n).log == if past then [] else Eager(e, c, src, d, n).log
    decreases Left(src)
  {
    LaxNext(e, c, src, d);
    match PrepareAndBind(e, c, src, d, true)
    case Finished(_) =>
    case Threw(_) => if !PrepareFails(e, src, d) { SilentExactly(e, Lax(c), src, d, n); }
    case Ready(s, slots, rest) =>
      var run := e.execute(s, slots, d);
      if !run.error { LaxRemains(e, c, rest, run.after, Counter(run, n), past); }
  }

  // ---- every caller ----

  /** The writes of the batch that are left, if no error has been passed. */
  function Remaining<D(!new)>(x: Context<D>, st: State<D>, past: bool): seq<Write> {
    if past then [] else Rest(x, st).log
  }

  ghost predicate On<D(!new)>(x: Context<D>, all: seq<Write>, st: State<D>, past: bool, stop: bool) {
    && !st.closed && Tame(x.engine, x.command, st.source, st.db) && st.log + Remaining(x, st, past) == all
    && NothingBehind(x.engine, x.command, st.source, st.db, past, stop)
  }

  /** A reader between two calls. */
  ghost predicate Stopped<D(!new)>(x: Context<D>, all: seq<Write>, st: State<D>) {
    if st.closed then st.log == all
    else
      && Steady(x, st)
      && if Failing(x, st) then On(x, all, st, true, false) else On(x, all, st, false, true) || On(x, all, st, true, true)
  }

  lemma CloseStops<D(!new)>(x: Context<D>, all: seq<Write>, st: State<D>)
    requires Stopped(x, all, st)
    ensures Close(x, st).0.closed && Close(x, st).0.log == all
  {
    CloseShuts(x, st);
    if !st.closed {
      CloseRunsUnchecked(x, st);
      if !Failing(x, st) {
        LaxRemains(x.engine, x.command, st.source, st.db, st.changes, !On(x, all, st, false, true));
      }
    }
  }

  lemma TameNext<D(!new)>(e: Engine<D>, c: Command, src: Source, d: D, n: Next)
    requires Tame(e, c, src, d) && n == PrepareAndBind(e, c, src, d, true)
    ensures n.Threw? && !PrepareFails(e, src, d) ==> Tame(e, c, n.src, d) && Left(n.src) < Left(src)
    ensures n.Ready? ==>
      var run := e.execute(n.statement, n.slots, d);
      && (n.statement.columns > 0 ==> n.statement.readOnly && run.after == d)
      && Tame(e, c, n.src, if run.error then d else run.after) && Left(n.src) < Left(src)
  {
    if n.Ready? && n.statement.columns > 0 { ReadOnlyRun(e, n.statement, n.slots, d, 0); }
  }

  ghost predicate Passed<D(!new)>(st: State<D>, n: Next, next: State<D>) {
    && next.source == n.src && next.db == st.db && next.log == st.log && next.changes == st.changes
    && next.closed == st.closed
  }

  /** Where `NextResultCore` comes to when the next statement is no plain one that succeeds. */
  lemma StopState<D(!new)>(x: Context<D>, st: State<D>, n: Next)
    requires !ReleaseThrows(st) && n == PrepareAndBind(x.engine, x.command, st.source, st.db, true)
    requires !Plain(x.engine, n, st.db) && (n.Ready? && n.statement.columns > 0 ==> n.statement.readOnly)
    ensures
      var (next, a) := Advance(x, st);
      && Passed(st, n, next) && Steady(x, next)
      && (Failing(x, next) <==> n.Ready? && x.engine.execute(n.statement, n.slots, st.db).error)
      && (!n.Ready? ==> next.live.None?) && (a.Thrown? <==> n.Threw? || (n.Ready? && n.statement.columns == 0))
  {
    StopTurn(x, st, n);
  }

  lemma PlainOn<D(!new)>(x: Context<D>, all: seq<Write>, st: State<D>, n: Next, past: bool, stop: bool, done: State<D>)
    requires On(x, all, st, past, stop) && !done.closed
    requires n == PrepareAndBind(x.engine, x.command, st.source, st.db, true) && Plain(x.engine, n, st.db)
    requires
      var run := x.engine.execute(n.statement, n.slots, st.db);
      && done.source == n.src && done.db == run.after && done.changes == Counter(run, st.changes)
      && done.log == st.log + Logged(n.statement, n.slots, run, st.changes)
    ensures On(x, all, done, past, stop)
  {
    var run := x.engine.execute(n.statement, n.slots, st.db);
    Associates(st.log, Logged(n.statement, n.slots, run, st.changes), Rest(x, done).log);
  }

  lemma EndOn<D(!new)>(x: Context<D>, all: seq<Write>, st: State<D>, n: Next, past: bool, stop: bool, next: State<D>)
    requires On(x, all, st, past, stop) && n == PrepareAndBind(x.engine, x.command, st.source, st.db, true)
    requires n.Finished? || (n.Threw? && PrepareFails(x.engine, st.source, st.db))
    requires Passed(st, n, next)
    ensures On(x, all, next, past, true)
  {
    LaxNext(x.engine, x.command, next.source, next.db);
    if n.Finished? { FinishedStays(x.engine, x.command, st.source, st.db, st.changes); }
  }

  lemma QueryOn<D(!new)>(x: Context<D>, all: seq<Write>, st: State<D>, n: Next, past: bool, stop: bool, next: State<D>)
    requires On(x, all, st, past, stop) && n == PrepareAndBind(x.engine, x.command, st.source, st.db, true)
    requires n.Ready? && n.statement.columns > 0 && !x.engine.execute(n.statement, n.slots, st.db).error
    requires Passed(st, n, next)
    ensures On(x, all, next, past, true) && n.statement.readOnly
  {
    ReadOnlyRun(x.engine, n.statement, n.slots, st.db, st.changes);
    assert [] + Rest(x, next).log == Rest(x, next).log;
  }

  lemma ErrorOn<D(!new)>(x: Context<D>, all: seq<Write>, st: State<D>, n: Next, past: bool, stop: bool, next: State<D>)
    requires On(x, all, st, past, stop) && n == PrepareAndBind(x.engine, x.command, st.source, st.db, true)
    requires (n.Threw? && !PrepareFails(x.engine, st.source, st.db))
      || (n.Ready? && x.engine.execute(n.statement, n.slots, st.db).error)
    requires Passed(st, n, next)
    ensures next.log == all && (past || stop || (n.Ready? && n.statement.columns > 0) ==> On(x, all, next, true, n.Threw?))
  {
    TameNext(x.engine, x.command, st.source, st.db, n);
    assert st.log + [] == st.log;
  }

  lemma StopOn<D(!new)>(x: Context<D>, all: seq<Write>, st: State<D>, n: Next, past: bool, stop: bool)
    requires On(x, all, st, past, stop) && !ReleaseThrows(st)
    requires n == PrepareAndBind(x.engine, x.command, st.source, st.db, true) && !Plain(x.engine, n, st.db)
    ensures
      var (next, a) := Advance(x, st);
      && (past || stop || !a.Thrown? ==> Stopped(x, all, next))
      && (a.Thrown? ==> Close(x, next).0.log == all)
  {
    TameNext(x.engine, x.command, st.source, st.db, n);
    StopState(x, st, n);
    var (next, a) := Advance(x, st);
    if n.Finished? || (n.Threw? && PrepareFails(x.engine, st.source, st.db)) {
      EndOn(x, all, st, n, past, stop, next);
      CloseStops(x, all, next);
    } else if n.Ready? && !x.engine.execute(n.statement, n.slots, st.db).error {
      QueryOn(x, all, st, n, past, stop, next);
    } else {
      ErrorOn(x, all, st, n, past, stop, next);
      ErrorCloses(x, st, n, next, past, stop);
    }
  }

  /** Closing right behind an error writes nothing. */
  lemma ErrorCloses<D(!new)>(x: Context<D>, st: State<D>, n: Next, next: State<D>, past: bool, stop: bool)
    requires Tame(x.engine, x.command, st.source, st.db) && !st.closed && Passed(st, n, next) && Steady(x, next)
    requires n == PrepareAndBind(x.engine, x.command, st.source, st.db, true)
    requires (n.Threw? && !PrepareFails(x.engine, st.source, st.db))
      || (n.Ready? && x.engine.execute(n.statement, n.slots, st.db).error && Failing(x, next))
    requires n.Threw? ==> WritesNothing(x.engine, Lax(x.command), n.src, st.db) && next.live.None?
    ensures Close(x, next).0.log == next.log
  {
    TameNext(x.engine, x.command, st.source, st.db, n);
    CloseRunsUnchecked(x, next);
    if n.Threw? {
      SilentExactly(x.engine, Lax(x.command), next.source, next.db, next.changes);
      assert next.log + [] == next.log;
    }
  }

  lemma {:induction false} AdvanceOn<D(!new)>(x: Context<D>, all: seq<Write>, st: State<D>, past: bool, stop: bool)
    requires On(x, all, st, past, stop) && !ReleaseThrows(st)
    ensures
      var (next, a) := Advance(x, st);
      && (past || stop || !a.Thrown? ==> Stopped(x, all, next))
      && (a.Thrown? ==> Close(x, next).0.log == all)
    decreases Left(st.source)
  {
    var n := PrepareAndBind(x.engine, x.command, st.source, st.db, true);
    if Plain(x.engine, n, st.db) {
      PlainTurn(x, st, n);
      var done := RunToEnd(x, Take(Detached(AddChanges(st)), n.statement, n.slots, n.src)).0;
      PlainOn(x, all, st, n, past, stop, done);
      AdvanceOn(x, all, done, past, stop);
    } else {
      StopOn(x, all, st, n, past, stop);
    }
  }

  lemma FetchStops<D(!new)>(x: Context<D>, all: seq<Write>, st: State<D>)
    requires Stopped(x, all, st) && !st.closed
    ensures Stopped(x, all, Fetch(x, st).0) && !Fetch(x, st).0.closed
  {
    if st.live.Some? { StepSteady(x, st); }
  }

  /** What the caller has seen, and what has been counted, does not matter. */
  lemma FlagsStop<D(!new)>(x: Context<D>, all: seq<Write>, st: State<D>, readStarted: bool, prefetched: bool)
    requires Stopped(x, all, st)
    ensures Stopped(x, all, st.(readStarted := readStarted, prefetched := prefetched)) && Stopped(x, all, AddChanges(st))
  {
  }

  lemma ReadRowStops<D(!new)>(x: Context<D>, all: seq<Write>, st: State<D>)
    requires Stopped(x, all, st) && !st.closed
    ensures var f := ReadRow(x, st).0; Stopped(x, all, f) && !f.closed && Stopped(x, all, AddChanges(f))
  {
    FlagsStop(x, all, st, true, st.prefetched);
    FlagsStop(x, all, st, true, false);
    var started := st.(readStarted := true);
    FetchStops(x, all, started);
    FlagsStop(x, all, Fetch(x, started).0, Fetch(x, started).0.readStarted, true);
    FlagsStop(x, all, ReadRow(x, st).0, true, true);
  }

  lemma ReadStops<D(!new)>(x: Context<D>, all: seq<Write>, st: State<D>)
    requires Stopped(x, all, st)
    ensures Stopped(x, all, Read(x, st).0)
  {
    if !st.closed {
      ReadRowStops(x, all, st);
      CloseStops(x, all, AddChanges(ReadRow(x, st).0));
    }
  }

  lemma NextResultStops<D(!new)>(x: Context<D>, all: seq<Write>, st: State<D>)
    requires Stopped(x, all, st) && !st.closed
    ensures Stopped(x, all, NextResult(x, st).0)
  {
    if ReleaseThrows(st) {
      ReleaseTurn(x, st);
    } else if Failing(x, st) {
      AdvanceOn(x, all, st, true, false);
    } else {
      AdvanceOn(x, all, st, !On(x, all, st, false, true), true);
    }
  }

  lemma DoStops<D(!new)>(x: Context<D>, all: seq<Write>, st: State<D>, call: Call)
    requires Stopped(x, all, st)
    ensures Stopped(x, all, Do(x, st, call).0)
  {
    match call
    case CallHasRows => if !st.closed { FetchStops(x, all, st); }
    case CallRead => ReadStops(x, all, st);
    case CallNextResult => if !st.closed { NextResultStops(x, all, st); }
    case CallClose => CloseStops(x, all, st);
  }

  lemma {:induction false} DriveStops<D(!new)>(x: Context<D>, all: seq<Write>, st: State<D>, calls: seq<Call>)
    requires Stopped(x, all, st)
    ensures Stopped(x, all, Drive(x, st, calls))
    decreases |calls|
  {
    if calls != [] {
      DoStops(x, all, st, calls[0]);
      DriveStops(x, all, Do(x, st, calls[0]).0, calls[1..]);
    }
  }

  lemma CreateStops<D(!new)>(x: Context<D>, src: Source, d: D, n: nat)
    requires Tame(x.engine, x.command, src, d) && NothingBehind(x.engine, x.command, src, d, false, false)
    ensures Stopped(x, Eager(x.engine, x.command, src, d, n).log, Create(x, src, d, n).0)
  {
    var all, fields := Eager(x.engine, x.command, src, d, n).log, Fields(src, d, n);
    assert [] + all == all;
    AdvanceOn(x, all, fields, false, false);
    CloseShuts(x, Advance(x, fields).0);
  }

  // ---- and conversely ----

  /** Closing after any number of calls of `NextResult` leaves the same writes. */
  ghost predicate Always<D(!new)>(x: Context<D>, all: seq<Write>, st: State<D>) {
    forall m: nat :: Close(x, Drive(x, st, Nexts(m))).0.log == all
  }

  /** What is asked of where `NextResultCore` comes to. */
  ghost predicate Harmless<D(!new)>(x: Context<D>, all: seq<Write>, st: State<D>, alive: bool) {
    var (next, a) := Advance(x, st);
    Close(x, next).0.log == all && (alive || !a.Thrown? ==> Always(x, all, next))
  }

  /** No caller has executed anything else so far, and none does who closes here. */
  ghost predicate Due<D(!new)>(x: Context<D>, all: seq<Write>, st: State<D>, past: bool, stop: bool) {
    && !st.closed && !ReleaseThrows(st) && !x.singleResult && Tame(x.engine, x.command, st.source, st.db)
    && st.log + Remaining(x, st, past) == all && (stop ==> st.log + Rest(Unchecked(x), st).log == all)
  }

  lemma PlainDue<D(!new)>(x: Context<D>, all: seq<Write>, st: State<D>, n: Next, past: bool, stop: bool)
    requires Due(x, all, st, past, stop) && Harmless(x, all, st, past || stop)
    requires n == PrepareAndBind(x.engine, x.command, st.source, st.db, true) && Plain(x.engine, n, st.db)
    ensures
      var done := RunToEnd(x, Take(Detached(AddChanges(st)), n.statement, n.slots, n.src)).0;
      && (past ==> n.statement.readOnly) && Due(x, all, done, past, stop) && Harmless(x, all, done, past || stop)
      && done.source == n.src && done.db == x.engine.execute(n.statement, n.slots, st.db).after
  {
    var run := x.engine.execute(n.statement, n.slots, st.db);
    var done := RunToEnd(x, Take(Detached(AddChanges(st)), n.statement, n.slots, n.src)).0;
    PlainTurn(x, st, n);
    AdvanceGrows(x, done);
    CloseGrows(x, Advance(x, done).0);
    LaxNext(x.engine, x.command, st.source, st.db);
    Associates(st.log, Logged(n.statement, n.slots, run, st.changes), Rest(x, done).log);
    Associates(st.log, Logged(n.statement, n.slots, run, st.changes), Rest(Unchecked(x), done).log);
  }

  lemma AlwaysHarmless<D(!new)>(x: Context<D>, all: seq<Write>, st: State<D>)
    requires Always(x, all, st) && !st.closed && !x.singleResult
    ensures Close(x, st).0.log == all && Harmless(x, all, st, true)
  {
    var next := Advance(x, st).0;
    assert Drive(x, st, Nexts(0)) == st && Drive(x, next, Nexts(0)) == next;
    forall m: nat ensures Close(x, Drive(x, next, Nexts(m))).0.log == all {
      assert Nexts(m + 1)[1..] == Nexts(m);
      assert Drive(x, st, Nexts(m + 1)) == Drive(x, next, Nexts(m));
    }
  }

  lemma ThrewDue<D(!new)>(x: Context<D>, all: seq<Write>, st: State<D>, n: Next, past: bool, stop: bool, next: State<D>)
    requires Due(x, all, st, past, stop) && !PrepareFails(x.engine, st.source, st.db)
    requires n == PrepareAndBind(x.engine, x.command, st.source, st.db, true) && n.Threw?
    requires Passed(st, n, next) && next.live.None? && Close(x, next).0.log == all
    ensures (stop ==> WritesNothing(x.engine, Lax(x.command), st.source, st.db))
    ensures WritesNothing(x.engine, Lax(x.command), n.src, st.db) && Due(x, all, next, true, true)
  {
    TameNext(x.engine, x.command, st.source, st.db, n);
    assert st.log + [] == st.log;
    CloseRunsUnchecked(x, next);
    SilentExactly(x.engine, Lax(x.command), n.src, st.db, st.changes);
    SilentExactly(x.engine, Lax(x.command), st.source, st.db, st.changes);
  }

  lemma QueryDue<D(!new)>(x: Context<D>, all: seq<Write>, st: State<D>, n: Next, past: bool, stop: bool, next: State<D>)
    requires Due(x, all, st, past, stop) && n == PrepareAndBind(x.engine, x.command, st.source, st.db, true) && n.Ready?
    requires !x.engine.execute(n.statement, n.slots, st.db).error && n.statement.columns > 0
    requires Passed(st, n, next) && Steady(x, next) && !Failing(x, next) && Close(x, next).0.log == all
    ensures Due(x, all, next, past, true)
  {
    TameNext(x.engine, x.command, st.source, st.db, n);
    ReadOnlyRun(x.engine, n.statement, n.slots, st.db, st.changes);
    assert [] + Rest(x, next).log == Rest(x, next).log;
    NothingToCount(x, next);
    CloseRunsUnchecked(x, next);
  }

  lemma ErrorDue<D(!new)>(x: Context<D>, all: seq<Write>, st: State<D>, n: Next, past: bool, stop: bool, next: State<D>)
    requires Due(x, all, st, past, stop) && n == PrepareAndBind(x.engine, x.command, st.source, st.db, true) && n.Ready?
    requires x.engine.execute(n.statement, n.slots, st.db).error && Passed(st, n, next) && !ReleaseThrows(next)
    ensures Due(x, all, next, true, false)
  {
    TameNext(x.engine, x.command, st.source, st.db, n);
    assert st.log + [] == st.log;
  }

  lemma {:induction false} ThrewBehind<D(!new)>(x: Context<D>, all: seq<Write>, st: State<D>, n: Next, past: bool, stop: bool)
    requires Due(x, all, st, past, stop) && Harmless(x, all, st, past || stop)
    requires n == PrepareAndBind(x.engine, x.command, st.source, st.db, true) && n.Threw?
    requires !PrepareFails(x.engine, st.source, st.db)
    ensures NothingBehind(x.engine, x.command, st.source, st.db, past, stop)
    decreases Left(st.source), 0
  {
    var next := Advance(x, st).0;
    TameNext(x.engine, x.command, st.source, st.db, n);
    StopState(x, st, n);
    ThrewDue(x, all, st, n, past, stop, next);
    if past || stop {
      AlwaysHarmless(x, all, next);
      Behind(x, all, next, true, true);
    }
  }

  lemma {:induction false} ErrorBehind<D(!new)>(x: Context<D>, all: seq<Write>, st: State<D>, n: Next, past: bool, stop: bool)
    requires Due(x, all, st, past, stop) && Harmless(x, all, st, past || stop)
    requires n == PrepareAndBind(x.engine, x.command, st.source, st.db, true) && n.Ready?
    requires x.engine.execute(n.statement, n.slots, st.db).error
    requires past || stop || n.statement.columns > 0
    ensures NothingBehind(x.engine, x.command, n.src, st.db, true, false)
    decreases Left(st.source), 0
  {
    var next := Advance(x, st).0;
    TameNext(x.engine, x.command, st.source, st.db, n);
    StopState(x, st, n);
    AlwaysHarmless(x, all, next);
    if ReleaseThrows(next) {
      ReleaseTurn(x, next);
      next := Advance(x, next).0;
      AlwaysHarmless(x, all, next);
    }
    ErrorDue(x, all, st, n, past, stop, next);
    Behind(x, all, next, true, false);
  }

  lemma {:induction false} QueryBehind<D(!new)>(x: Context<D>, all: seq<Write>, st: State<D>, n: Next, past: bool, stop: bool)
    requires Due(x, all, st, past, stop) && Harmless(x, all, st, past || stop)
    requires n == PrepareAndBind(x.engine, x.command, st.source, st.db, true) && n.Ready?
    requires !x.engine.execute(n.statement, n.slots, st.db).error && n.statement.columns > 0
    ensures NothingBehind(x.engine, x.command, n.src, st.db, past, true)
    decreases Left(st.source), 0
  {
    var next := Advance(x, st).0;
    TameNext(x.engine, x.command, st.source, st.db, n);
    StopState(x, st, n);
    AlwaysHarmless(x, all, next);
    QueryDue(x, all, st, n, past, stop, next);
    Behind(x, all, next, past, true);
  }

  lemma {:induction false} Behind<D(!new)>(x: Context<D>, all: seq<Write>, st: State<D>, past: bool, stop: bool)
    requires Due(x, all, st, past, stop) && Harmless(x, all, st, past || stop)
    ensures NothingBehind(x.engine, x.command, st.source, st.db, past, stop)
    decreases Left(st.source)
  {
    var n := PrepareAndBind(x.engine, x.command, st.source, st.db, true);
    if Plain(x.engine, n, st.db) {
      PlainDue(x, all, st, n, past, stop);
      Behind(x, all, RunToEnd(x, Take(Detached(AddChanges(st)), n.statement, n.slots, n.src)).0, past, stop);
    } else if n.Threw? && !PrepareFails(x.engine, st.source, st.db) {
      ThrewBehind(x, all, st, n, past, stop);
    } else if n.Ready? {
      if x.engine.execute(n.statement, n.slots, st.db).error {
        if past || stop || n.statement.columns > 0 { ErrorBehind(x, all, st, n, past, stop); }
      } else {
        ReadOnlyRun(x.engine, n.statement, n.slots, st.db, st.changes);
        QueryBehind(x, all, st, n, past, stop);
      }
    }
  }

  /** Errors of any kind.  Every way of reading a batch, whatever the caller does when something throws,
      executes exactly the writes up to its first error, if and only if nothing is written behind it:
      neither by the statements that come next, nor by those `Close` executes without the check for
      missing parameters, the failing one itself included where the reader can be closed before it. */
  lemma NothingBehindExactly<D(!new)>(x: Context<D>, src: Source, d: D, n: nat)
    requires !x.singleResult && Tame(x.engine, x.command, src, d)
    ensures (forall calls :: ReadAnyWay(x, src, d, n, calls)) <==> NothingBehind(x.engine, x.command, src, d, false, false)
  {
    var all, first := Eager(x.engine, x.command, src, d, n).log, Create(x, src, d, n).0;
    if NothingBehind(x.engine, x.command, src, d, false, false) {
      CreateStops(x, src, d, n);
      forall calls ensures ReadAnyWay(x, src, d, n, calls) {
        DriveStops(x, all, first, calls);
        CloseStops(x, all, Drive(x, first, calls));
      }
    } else if forall calls :: ReadAnyWay(x, src, d, n, calls) {
      var fields := Fields(src, d, n);
      assert [] + all == all;
      assert ReadAnyWay(x, src, d, n, []);
      if Create(x, src, d, n).1.Thrown? {
        CloseShuts(x, Advance(x, fields).0);
      } else {
        forall m: nat ensures Close(x, Drive(x, first, Nexts(m))).0.log == all {
          assert ReadAnyWay(x, src, d, n, Nexts(m));
        }
      }
      Behind(x, all, fields, false, false);
    }
  }
}
