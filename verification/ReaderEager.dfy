/** Reading a batch as late as possible means the same as executing it at once. */
module ReaderEager {
  import opened Options
  import opened Binding
  import opened Engine
  import opened ReaderModel
  import opened ReaderFrame

  // ---- what has happened, followed by what is still to come ----

  /** The outcome `k` is the writes `log` followed by the outcome `o`. */
  ghost predicate Continues<D>(k: Outcome<D>, log: seq<Write>, o: Outcome<D>) {
    && k.ok == o.ok && k.db == o.db && k.log == log + o.log
    && |o.results| <= |k.results| && o.results == k.results[|k.results| - |o.results|..]
  }

  /** A suffix of a suffix is a suffix. */
  lemma SuffixOfSuffix(whole: seq<seq<Row>>, rs: seq<seq<Row>>, os: seq<seq<Row>>)
    requires |rs + os| <= |whole| && rs + os == whole[|whole| - |rs + os|..]
    ensures os == whole[|whole| - |os|..]
    ensures |rs| == 1 ==> whole[|whole| - |os| - 1] == rs[0]
  {
    var from := |whole| - |rs + os|;
    assert whole[from..][|rs|..] == whole[from + |rs|..];
    assert (rs + os)[|rs|..] == os;
    if |rs| == 1 { assert (rs + os)[0] == whole[from..][0]; }
  }

  lemma ContinuesBehind<D>(k: Outcome<D>, log: seq<Write>, o: Outcome<D>, w: seq<Write>, rs: seq<seq<Row>>)
    requires Continues(k, log, Behind(o, w, rs)) && |rs| <= 1
    ensures Continues(k, log + w, o) && |o.results| + |rs| <= |k.results|
    ensures |rs| == 1 ==> k.results[|k.results| - |o.results| - 1] == rs[0]
  {
    assert log + (w + o.log) == log + w + o.log;
    SuffixOfSuffix(k.results, rs, o.results);
  }

  /** `_recordsAffected` after one more reading of the change counter. */
  function Total(affected: int, reading: nat): int {
    if reading == 0 then affected else if affected < 0 then reading else affected + reading
  }

  /** `_recordsAffected` after all writes of a log. */
  function Affected(log: seq<Write>): int {
    if log == [] then -1 else Total(Affected(log[..|log| - 1]), log[|log| - 1].reading)
  }

  /** The statements not fetched yet, executed eagerly. */
  function Rest<D(!new)>(x: Context<D>, st: State<D>): Outcome<D> {
    Eager(x.engine, x.command, st.source, st.db, st.changes)
  }

  /** The batch `k` is what has happened so far followed by what has not been fetched yet, and the
      changes of all that happened have been counted. */
  ghost predicate Settled<D(!new)>(x: Context<D>, k: Outcome<D>, st: State<D>) {
    && !st.closed && Continues(k, st.log, Rest(x, st)) && Orderly(x.engine, x.command, st.source, st.db)
    && st.recordsAffected == Affected(st.log)
  }

  /** The batch is over: all of its writes have happened. */
  ghost predicate Over<D(!new)>(k: Outcome<D>, st: State<D>) {
    st.log == k.log && st.db == k.db && st.recordsAffected == Affected(st.log)
  }

  /** The current statement is one that fails. */
  predicate Failing<D(!new)>(x: Context<D>, st: State<D>) {
    st.live.Some? && Executed(x, st).error
  }

  /** Stepping the current statement changes nothing but its handle: it is a read-only query, or
      fails at once; and the handle delivers the rows it has in the current database. */
  ghost predicate Steady<D(!new)>(x: Context<D>, st: State<D>) {
    st.live.Some? ==>
      var s, run := st.live.value.statement, Executed(x, st);
      && ((s.columns > 0 && s.readOnly) || (run.error && run.rows == []))
      && match st.live.value.cursor
         case Fresh => true
         case Rows(r, pos) => r == run && 1 <= pos <= |run.rows|
         case Done => !run.error
         case Broken => run.error
  }

  /** The rows of the current query are those of the result set of the batch whose turn it is. */
  ghost predicate ResultCurrent<D(!new)>(x: Context<D>, k: Outcome<D>, st: State<D>) {
    st.live.Some? ==>
      var n := |Rest(x, st).results|;
      n < |k.results| && Executed(x, st).rows == k.results[|k.results| - n - 1]
  }

  /** The reader is on course: closed, with the batch over; stopped at a failing statement, with
      the batch over and no end of its rows seen; or in the middle of it. */
  ghost predicate Tracks<D(!new)>(x: Context<D>, k: Outcome<D>, st: State<D>) {
    if st.closed then Over(k, st)
    else
      && Steady(x, st)
      && (if Failing(x, st) then !k.ok && Over(k, st) && (st.prefetched ==> st.hasRow)
          else Settled(x, k, st) && ResultCurrent(x, k, st))
  }

  // ---- stepping the current statement ----

  lemma StepSteady<D(!new)>(x: Context<D>, st: State<D>)
    requires Steady(x, st) && st.live.Some?
    ensures var (next, a) := Step(x, st);
      && next == WithCursor(st, next.live.value.cursor) && Steady(x, next)
      && (a.Thrown? ==> Failing(x, st))
  {
    assert st.log + [] == st.log;
  }

  lemma {:induction false} RunSteady<D(!new)>(x: Context<D>, st: State<D>)
    requires Steady(x, st) && st.live.Some?
    ensures var (next, a) := RunToEnd(x, st);
      && next == WithCursor(st, next.live.value.cursor) && Steady(x, next)
      && (a.Thrown? <==> Failing(x, st))
    decreases StepsLeft(x, st)
  {
    StepSteady(x, st);
    var (next, a) := Step(x, st);
    if a.Yes? {
      RunSteady(x, next);
    } else if a.No? {
      StepEnds(x, st);
    }
  }

  /** A failing statement never reports its end. */
  lemma StepEnds<D(!new)>(x: Context<D>, st: State<D>)
    requires Steady(x, st) && st.live.Some? && Step(x, st).1.No?
    ensures !Failing(x, st)
  {
  }

  /** Moving the handle of the current statement is all the tracking allows, and it allows that. */
  lemma CursorTracks<D(!new)>(x: Context<D>, k: Outcome<D>, st: State<D>, next: State<D>)
    requires Tracks(x, k, st) && !st.closed && st.live.Some?
    requires next.live.Some? && next == WithCursor(st, next.live.value.cursor) && Steady(x, next)
    ensures Tracks(x, k, next)
  {
  }

  // ---- taking the next statement ----

  /** Without the check for missing parameters the same statement comes next. */
  lemma LaxIsStrict<D(!new)>(e: Engine<D>, c: Command, src: Source, d: D)
    requires Orderly(e, c, src, d)
    ensures PrepareAndBind(e, c, src, d, false) == PrepareAndBind(e, c, src, d, true)
    ensures PrepareAndBind(e, c, src, d, true).Threw? ==> PrepareAndBind(e, c, src, d, true).src == src
  {
  }

  lemma NothingStays<D(!new)>(e: Engine<D>, text: Sql, offset: nat, d: D)
    requires Prepare(e, text, offset, d).Nothing?
    ensures Prepare(e, text, Prepare(e, text, offset, d).next, d).Nothing?
  {
  }

  /** Where nothing is left, nothing is left later on. */
  lemma FinishedStays<D(!new)>(e: Engine<D>, c: Command, src: Source, d: D, n: nat)
    requires PrepareAndBind(e, c, src, d, true).Finished?
    ensures var end := PrepareAndBind(e, c, src, d, true).src;
      && PrepareAndBind(e, c, end, d, true).Finished? && Orderly(e, c, end, d)
      && Eager(e, c, end, d, n) == Eager(e, c, src, d, n)
  {
    if src.Parse? { NothingStays(e, src.text, src.offset, d); }
  }

  lemma EagerStep<D(!new)>(e: Engine<D>, c: Command, src: Source, d: D, n: nat, s: Statement, slots: Slots, rest: Source)
    requires PrepareAndBind(e, c, src, d, true) == Ready(s, slots, rest) && Orderly(e, c, src, d)
    ensures var run := e.execute(s, slots, d);
      && (s.columns > 0 ==> s.readOnly)
      && if run.error then Eager(e, c, src, d, n) == Outcome(d, [], [], false)
         else
           && Orderly(e, c, rest, run.after)
           && Eager(e, c, src, d, n) ==
                Behind(Eager(e, c, rest, run.after, Counter(run, n)), Logged(s, slots, run, n), ResultSets(s, run))
  {
  }

  lemma ReadOnlyRun<D(!new)>(e: Engine<D>, s: Statement, slots: Slots, d: D, n: nat)
    requires s.readOnly && s.columns > 0
    ensures var run := e.execute(s, slots, d); run.after == d && Counter(run, n) == n && Logged(s, slots, run, n) == []
  {
  }

  lemma TakeFailing<D(!new)>(x: Context<D>, k: Outcome<D>, st: State<D>, s: Statement, slots: Slots, src: Source)
    requires Settled(x, k, st) && PrepareAndBind(x.engine, x.command, st.source, st.db, true) == Ready(s, slots, src)
    requires x.engine.execute(s, slots, st.db).error
    ensures !k.ok && Over(k, Take(st, s, slots, src)) && Steady(x, Take(st, s, slots, src))
  {
    EagerStep(x.engine, x.command, st.source, st.db, st.changes, s, slots, src);
  }

  lemma TakeQuery<D(!new)>(x: Context<D>, k: Outcome<D>, st: State<D>, s: Statement, slots: Slots, src: Source)
    requires Settled(x, k, st) && PrepareAndBind(x.engine, x.command, st.source, st.db, true) == Ready(s, slots, src)
    requires !x.engine.execute(s, slots, st.db).error && s.columns > 0
    ensures var next := Take(st, s, slots, src);
      Settled(x, k, next) && ResultCurrent(x, k, next) && s.readOnly && |Rest(x, st).results| == |Rest(x, next).results| + 1
  {
    var run := x.engine.execute(s, slots, st.db);
    EagerStep(x.engine, x.command, st.source, st.db, st.changes, s, slots, src);
    ReadOnlyRun(x.engine, s, slots, st.db, st.changes);
    ContinuesBehind(k, st.log, Eager(x.engine, x.command, src, st.db, st.changes), [], [run.rows]);
    assert st.log + [] == st.log;
  }

  lemma AffectedLogged<D>(log: seq<Write>, s: Statement, slots: Slots, run: Execution<D>, n: nat)
    ensures Affected(log + Logged(s, slots, run, n)) ==
      if s.readOnly then Affected(log) else Total(Affected(log), Counter(run, n))
  {
    if s.readOnly {
      assert log + [] == log;
    } else {
      var w := Logged(s, slots, run, n)[0];
      assert (log + [w])[..|log|] == log;
    }
  }

  /** What a statement without columns leaves behind, counted. */
  lemma PlainCounts<D(!new)>(x: Context<D>, st: State<D>, s: Statement, slots: Slots, src: Source)
    requires s.columns == 0 && !x.engine.execute(s, slots, st.db).error
    ensures
      var run := x.engine.execute(s, slots, st.db);
      var done := RunToEnd(x, Take(st, s, slots, src)).0;
      var counted := AddChanges(done);
      && RunToEnd(x, Take(st, s, slots, src)).1.No? && !ReleaseThrows(done) && counted.closed == st.closed
      && done.source == counted.source == src && done.db == counted.db == run.after
      && done.changes == counted.changes == Counter(run, st.changes)
      && counted.log == st.log + Logged(s, slots, run, st.changes)
      && counted.recordsAffected == if s.readOnly then st.recordsAffected else Total(st.recordsAffected, counted.changes)
  {
    PlainRuns(x, st, s, slots, src);
  }

  lemma TakePlain<D(!new)>(x: Context<D>, k: Outcome<D>, st: State<D>, s: Statement, slots: Slots, src: Source)
    requires Settled(x, k, st) && PrepareAndBind(x.engine, x.command, st.source, st.db, true) == Ready(s, slots, src)
    requires !x.engine.execute(s, slots, st.db).error && s.columns == 0
    ensures var (done, a) := RunToEnd(x, Take(st, s, slots, src));
      a.No? && Settled(x, k, AddChanges(done)) && !ReleaseThrows(done) && Rest(x, st).results == Rest(x, done).results
  {
    var run := x.engine.execute(s, slots, st.db);
    var o := Eager(x.engine, x.command, src, run.after, Counter(run, st.changes));
    EagerStep(x.engine, x.command, st.source, st.db, st.changes, s, slots, src);
    PlainCounts(x, st, s, slots, src);
    ContinuesBehind(k, st.log, o, Logged(s, slots, run, st.changes), []);
    AffectedLogged(st.log, s, slots, run, st.changes);
    assert [] + o.results == o.results;
  }

  // ---- the loops ----

  /** The fields that say what the caller has seen do not matter to the tracking. */
  lemma SettledStays<D(!new)>(x: Context<D>, k: Outcome<D>, st: State<D>, next: State<D>)
    requires Settled(x, k, st) && !next.closed
    requires next.source == st.source && next.db == st.db && next.changes == st.changes && next.log == st.log
    requires next.recordsAffected == st.recordsAffected
    ensures Settled(x, k, next) && Rest(x, next) == Rest(x, st)
  {
  }

  lemma SettledEnds<D(!new)>(x: Context<D>, k: Outcome<D>, st: State<D>, next: State<D>)
    requires Settled(x, k, st) && !PrepareAndBind(x.engine, x.command, st.source, st.db, true).Ready?
    requires next.source == PrepareAndBind(x.engine, x.command, st.source, st.db, true).src
    requires next.db == st.db && next.changes == st.changes && next.log == st.log && !next.closed
    requires next.recordsAffected == st.recordsAffected
    ensures Settled(x, k, next) && Over(k, next) && Rest(x, st).results == [] == Rest(x, next).results
    ensures PrepareAndBind(x.engine, x.command, st.source, st.db, true).Finished? <==> k.ok
  {
    LaxIsStrict(x.engine, x.command, st.source, st.db);
    if PrepareAndBind(x.engine, x.command, st.source, st.db, true).Finished? {
      FinishedStays(x.engine, x.command, st.source, st.db, st.changes);
    }
    assert st.log + [] == st.log;
  }

  /** Where `NextResultCore` may arrive when `n` result sets are still to come: at the next query,
      at the end of the batch, or at its failing statement. */
  ghost predicate Arrived<D(!new)>(x: Context<D>, k: Outcome<D>, n: nat, next: State<D>, a: Answer) {
    && Tracks(x, k, next) && !next.closed && !next.readStarted && !next.prefetched && !next.hasRow
    && match a
       case Yes =>
         && next.live.Some? && next.live.value.cursor.Fresh? && next.live.value.statement.columns > 0
         && (Failing(x, next) || |Rest(x, next).results| + 1 == n)
       case No => next.live.None? && k.ok && n == 0 && Rest(x, next).results == [] && Over(k, next)
       case Thrown =>
         && (Failing(x, next) || (next.live.None? && Rest(x, next).results == []))
         && !k.ok && n == 0 && Over(k, next)
  }

  lemma ArrivedAtEnd<D(!new)>(x: Context<D>, k: Outcome<D>, st: State<D>, src: Source)
    requires Settled(x, k, st) && st.live.None? && !st.readStarted && !st.prefetched && !st.hasRow
    requires var n := PrepareAndBind(x.engine, x.command, st.source, st.db, true); !n.Ready? && src == n.src
    ensures var n := PrepareAndBind(x.engine, x.command, st.source, st.db, true);
      Arrived(x, k, |Rest(x, st).results|, st.(source := src), if n.Finished? then No else Thrown)
  {
    SettledEnds(x, k, st, st.(source := src));
  }

  lemma ArrivedAtFailure<D(!new)>(x: Context<D>, k: Outcome<D>, st: State<D>, s: Statement, slots: Slots, src: Source)
    requires Settled(x, k, st) && PrepareAndBind(x.engine, x.command, st.source, st.db, true) == Ready(s, slots, src)
    requires x.engine.execute(s, slots, st.db).error && !st.readStarted && !st.prefetched && !st.hasRow
    ensures var next := Take(st, s, slots, src);
      if s.columns > 0 then Arrived(x, k, |Rest(x, st).results|, next, Yes)
      else Arrived(x, k, |Rest(x, st).results|, WithCursor(next, Broken), Thrown)
  {
    EagerStep(x.engine, x.command, st.source, st.db, st.changes, s, slots, src);
    TakeFailing(x, k, st, s, slots, src);
  }

  lemma ArrivedAtQuery<D(!new)>(x: Context<D>, k: Outcome<D>, st: State<D>, s: Statement, slots: Slots, src: Source)
    requires Settled(x, k, st) && PrepareAndBind(x.engine, x.command, st.source, st.db, true) == Ready(s, slots, src)
    requires !x.engine.execute(s, slots, st.db).error && s.columns > 0 && !st.readStarted && !st.prefetched && !st.hasRow
    ensures Arrived(x, k, |Rest(x, st).results|, Take(st, s, slots, src), Yes)
  {
    TakeQuery(x, k, st, s, slots, src);
  }

  lemma {:induction false} AdvanceTracks<D(!new)>(x: Context<D>, k: Outcome<D>, st: State<D>)
    requires Settled(x, k, AddChanges(st)) && !ReleaseThrows(st)
    ensures Arrived(x, k, |Rest(x, st).results|, Advance(x, st).0, Advance(x, st).1)
    decreases Left(st.source)
  {
    var free := Detached(AddChanges(st));
    SettledStays(x, k, AddChanges(st), free);
    AdvanceTurn(x, st);
    match PrepareAndBind(x.engine, x.command, st.source, st.db, true)
    case Threw(src) => ArrivedAtEnd(x, k, free, src);
    case Finished(src) => ArrivedAtEnd(x, k, free, src);
    case Ready(s, slots, src) =>
      if x.engine.execute(s, slots, st.db).error {
        ArrivedAtFailure(x, k, free, s, slots, src);
      } else if s.columns > 0 {
        ArrivedAtQuery(x, k, free, s, slots, src);
      } else {
        AdvancePlain(x, k, st, free, s, slots, src);
      }
  }

  lemma {:induction false} AdvancePlain<D(!new)>(x: Context<D>, k: Outcome<D>, st: State<D>, free: State<D>,
      s: Statement, slots: Slots, src: Source)
    requires Settled(x, k, free) && Left(src) < Left(st.source) && Rest(x, free) == Rest(x, st)
    requires PrepareAndBind(x.engine, x.command, free.source, free.db, true) == Ready(s, slots, src)
    requires !x.engine.execute(s, slots, free.db).error && s.columns == 0
    requires Advance(x, st) == Advance(x, RunToEnd(x, Take(free, s, slots, src)).0)
    ensures Arrived(x, k, |Rest(x, st).results|, Advance(x, st).0, Advance(x, st).1)
    decreases Left(st.source), 0
  {
    TakePlain(x, k, free, s, slots, src);
    AdvanceTracks(x, k, RunToEnd(x, Take(free, s, slots, src)).0);
  }

  /** Draining executes all that is left. */
  lemma {:induction false} DrainRestEnds<D(!new)>(x: Context<D>, k: Outcome<D>, st: State<D>)
    requires Settled(x, k, st)
    ensures Over(k, DrainRest(x, st)) && (k.ok ==> DrainRest(x, st).live.None?)
    decreases Left(st.source)
  {
    LaxIsStrict(x.engine, x.command, st.source, st.db);
    match PrepareAndBind(x.engine, x.command, st.source, st.db, true)
    case Threw(src) => SettledEnds(x, k, st, st.(source := src));
    case Finished(src) => SettledEnds(x, k, st, st.(source := src, live := None));
    case Ready(s, slots, src) => DrainTaken(x, k, st, s, slots, src);
  }

  lemma {:induction false} DrainTaken<D(!new)>(x: Context<D>, k: Outcome<D>, st: State<D>, s: Statement, slots: Slots, src: Source)
    requires Settled(x, k, st) && PrepareAndBind(x.engine, x.command, st.source, st.db, true) == Ready(s, slots, src)
    requires Left(src) < Left(st.source)
    ensures
      var end := AfterDrained(x, RunToEnd(x, Take(st, s, slots, src)));
      Over(k, end) && (k.ok ==> end.live.None?)
    decreases Left(st.source), 0
  {
    var next := Take(st, s, slots, src);
    if x.engine.execute(s, slots, st.db).error {
      TakeFailing(x, k, st, s, slots, src);
      RunSteady(x, next);
    } else if s.columns > 0 {
      TakeQuery(x, k, st, s, slots, src);
      RunSteady(x, next);
      SettledStays(x, k, next, RunToEnd(x, next).0);
      DrainRestEnds(x, k, RunToEnd(x, next).0);
    } else {
      TakePlain(x, k, st, s, slots, src);
      DrainRestEnds(x, k, AddChanges(RunToEnd(x, next).0));
    }
  }

  // ---- the calls ----

  /** While a query that succeeds is current, nothing waits to be counted. */
  lemma NothingToCount<D(!new)>(x: Context<D>, st: State<D>)
    requires Steady(x, st) && !Failing(x, st)
    ensures AddChanges(st) == st && !ReleaseThrows(st)
  {
  }

  lemma CloseEnds<D(!new)>(x: Context<D>, k: Outcome<D>, st: State<D>)
    requires Tracks(x, k, st)
    ensures Over(k, Close(x, st).0) && Close(x, st).0.closed
    ensures k.ok && !st.closed ==> Drain(x, st).live.None?
  {
    if !st.closed {
      if st.live.None? {
        DrainRestEnds(x, k, st);
      } else {
        var (done, a) := RunToEnd(x, st);
        RunSteady(x, st);
        if !a.Thrown? {
          NothingToCount(x, done);
          SettledStays(x, k, st, done);
          DrainRestEnds(x, k, done);
        }
      }
    }
  }

  /** What the caller has seen does not matter to the tracking. */
  lemma FlagsTrack<D(!new)>(x: Context<D>, k: Outcome<D>, st: State<D>, hasRow: bool, prefetched: bool, readStarted: bool)
    requires Tracks(x, k, st) && (!st.closed && Failing(x, st) && prefetched ==> hasRow)
    ensures Tracks(x, k, st.(hasRow := hasRow, prefetched := prefetched, readStarted := readStarted))
  {
  }

  lemma FetchTracks<D(!new)>(x: Context<D>, k: Outcome<D>, st: State<D>)
    requires Tracks(x, k, st) && !st.closed
    ensures var (next, a) := Fetch(x, st); Tracks(x, k, next) && !next.closed && (a.Thrown? ==> Failing(x, st))
    ensures Fetch(x, st).1.No? ==> !Failing(x, st)
  {
    if st.live.Some? {
      var (next, a) := Step(x, st);
      StepSteady(x, st);
      CursorTracks(x, k, st, next);
      if a.No? { StepEnds(x, st); }
      if !a.Thrown? { FlagsTrack(x, k, next, a.Yes?, next.prefetched, next.readStarted); }
    }
  }

  lemma HasRowsTracks<D(!new)>(x: Context<D>, k: Outcome<D>, st: State<D>)
    requires Tracks(x, k, st)
    ensures Tracks(x, k, HasRows(x, st).0)
  {
    if !st.closed {
      FetchTracks(x, k, st);
      var (f, a) := Fetch(x, st);
      if !a.Thrown? && !st.prefetched && !st.readStarted { PeekedTracks(x, k, st); }
    }
  }

  lemma PeekedTracks<D(!new)>(x: Context<D>, k: Outcome<D>, st: State<D>)
    requires Tracks(x, k, st) && !st.closed && Tracks(x, k, Fetch(x, st).0) && !Fetch(x, st).0.closed
    requires !Fetch(x, st).1.Thrown? && (Fetch(x, st).1.No? ==> !Failing(x, st))
    ensures Tracks(x, k, Fetch(x, st).0.(prefetched := true))
  {
    var (f, a) := Fetch(x, st);
    if st.live.Some? && a.No? { StepSteady(x, st); }
    FlagsTrack(x, k, f, f.hasRow, true, f.readStarted);
  }

  lemma ReadTracks<D(!new)>(x: Context<D>, k: Outcome<D>, st: State<D>)
    requires Tracks(x, k, st)
    ensures Tracks(x, k, Read(x, st).0)
  {
    if !st.closed {
      if st.prefetched {
        FlagsTrack(x, k, st, st.hasRow, false, true);
        ReadEnds(x, k, st.(readStarted := true, prefetched := false), st.hasRow);
      } else {
        var started := st.(readStarted := true);
        FlagsTrack(x, k, st, st.hasRow, false, true);
        FetchTracks(x, k, started);
        var (f, b) := Fetch(x, started);
        if b.No? {
          FlagsTrack(x, k, f, f.hasRow, true, f.readStarted);
          ReadEnds(x, k, f.(prefetched := true), false);
        }
      }
    }
  }

  /** The last part of `Read`. */
  lemma ReadEnds<D(!new)>(x: Context<D>, k: Outcome<D>, fetched: State<D>, hasRow: bool)
    requires Tracks(x, k, fetched) && !fetched.closed && (!hasRow ==> !Failing(x, fetched))
    ensures !hasRow ==> Tracks(x, k, AddChanges(fetched)) && Tracks(x, k, Close(x, AddChanges(fetched)).0)
  {
    if !hasRow {
      NothingToCount(x, fetched);
      CloseEnds(x, k, fetched);
    }
  }

  lemma NextResultTracks<D(!new)>(x: Context<D>, k: Outcome<D>, st: State<D>)
    requires Tracks(x, k, st) && !st.closed && !Failing(x, st) && !x.singleResult
    ensures Arrived(x, k, |Rest(x, st).results|, NextResult(x, st).0, NextResult(x, st).1)
  {
    NothingToCount(x, st);
    AdvanceTracks(x, k, st);
  }

  // ---- whole runs ----

  /** The caller does not ask for the next result while the current statement fails. */
  predicate Disciplined<D(!new)>(x: Context<D>, st: State<D>, calls: seq<Call>)
    decreases |calls|
  {
    calls == [] ||
      ((calls[0].CallNextResult? ==> st.closed || !Failing(x, st)) && Disciplined(x, Do(x, st, calls[0]).0, calls[1..]))
  }

  lemma DoTracks<D(!new)>(x: Context<D>, k: Outcome<D>, st: State<D>, call: Call)
    requires Tracks(x, k, st) && (call.CallNextResult? ==> st.closed || !Failing(x, st))
    ensures Tracks(x, k, Do(x, st, call).0)
  {
    match call
    case CallHasRows => HasRowsTracks(x, k, st);
    case CallRead => ReadTracks(x, k, st);
    case CallNextResult => if !st.closed && !x.singleResult { NextResultTracks(x, k, st); }
    case CallClose => CloseEnds(x, k, st);
  }

  lemma {:induction false} DriveTracks<D(!new)>(x: Context<D>, k: Outcome<D>, st: State<D>, calls: seq<Call>)
    requires Tracks(x, k, st) && Disciplined(x, st, calls)
    ensures Tracks(x, k, Drive(x, st, calls))
    decreases |calls|
  {
    if calls != [] {
      DoTracks(x, k, st, calls[0]);
      DriveTracks(x, k, Do(x, st, calls[0]).0, calls[1..]);
    }
  }

  lemma CreateTracks<D(!new)>(x: Context<D>, src: Source, d: D, n: nat)
    requires Orderly(x.engine, x.command, src, d)
    ensures var k := Eager(x.engine, x.command, src, d, n);
      && Tracks(x, k, Create(x, src, d, n).0)
      && (Create(x, src, d, n).1.Thrown? <==> Create(x, src, d, n).0.closed)
      && (!Create(x, src, d, n).1.Thrown? ==> Arrived(x, k, |k.results|, Create(x, src, d, n).0, Create(x, src, d, n).1))
  {
    var k := Eager(x.engine, x.command, src, d, n);
    var fields := Fields(src, d, n);
    assert AddChanges(fields) == fields;
    assert [] + k.log == k.log && k.results[0..] == k.results;
    AdvanceTracks(x, k, fields);
    if Advance(x, fields).1.Thrown? { CloseEnds(x, k, Advance(x, fields).0); }
  }

  /** What has happened is never more than the batch. */
  lemma NeverMore<D(!new)>(x: Context<D>, k: Outcome<D>, st: State<D>)
    requires Tracks(x, k, st)
    ensures st.log <= k.log
  {
  }

  /** Deferred equals eager, and errors stop the script.  Whatever a caller does who does not ask
      for the next result of a statement that fails: at any time the writes that took effect are a
      prefix of the writes of the batch, executed in order and each once, up to its first error;
      once the reader is closed they are all of them, on the same database, and the affected
      records are what the change counter read after each of them. */
  lemma DeferredEqualsEager<D(!new)>(x: Context<D>, src: Source, d: D, n: nat, calls: seq<Call>)
    requires Orderly(x.engine, x.command, src, d) && Disciplined(x, Create(x, src, d, n).0, calls)
    ensures
      var k := Eager(x.engine, x.command, src, d, n);
      var st := Drive(x, Create(x, src, d, n).0, calls);
      var shut := Close(x, st).0;
      && st.log <= k.log
      && shut.closed && shut.log == k.log && shut.db == k.db && shut.recordsAffected == Affected(k.log)
  {
    var k := Eager(x.engine, x.command, src, d, n);
    CreateTracks(x, src, d, n);
    DriveTracks(x, k, Create(x, src, d, n).0, calls);
    NeverMore(x, k, Drive(x, Create(x, src, d, n).0, calls));
    CloseEnds(x, k, Drive(x, Create(x, src, d, n).0, calls));
  }

  /** A batch that succeeds may be read in any way whatever. */
  lemma {:induction false} SuccessIsDisciplined<D(!new)>(x: Context<D>, k: Outcome<D>, st: State<D>, calls: seq<Call>)
    requires Tracks(x, k, st) && k.ok
    ensures Disciplined(x, st, calls)
    decreases |calls|
  {
    if calls != [] {
      DoTracks(x, k, st, calls[0]);
      SuccessIsDisciplined(x, k, Do(x, st, calls[0]).0, calls[1..]);
    }
  }

  // ---- a rule for callers ----

  function StillEnded(call: Call, a: Answer, ended: bool): bool {
    match call
    case CallRead => a.No?
    case CallNextResult => false
    case _ => ended
  }

  /** The caller asks for the next result only when there is no current one, or when the last `Read`
      answered that it has no more rows (`ended`). */
  predicate Careful<D(!new)>(x: Context<D>, st: State<D>, ended: bool, calls: seq<Call>)
    decreases |calls|
  {
    calls == [] ||
      var (next, a) := Do(x, st, calls[0]);
      && (calls[0].CallNextResult? ==> st.closed || st.live.None? || ended)
      && Careful(x, next, StillEnded(calls[0], a, ended), calls[1..])
  }

  /** What such a caller knows: the current handle has come to its end, and stays there. */
  ghost predicate AtEnd<D(!new)>(st: State<D>) {
    st.closed || st.live.None? || (st.readStarted && st.live.value.cursor.Done?)
  }

  /** A first row that was looked for and is not there is the end. */
  ghost predicate NoRowIsEnd<D(!new)>(st: State<D>) {
    !st.closed && st.live.Some? && st.prefetched && !st.hasRow ==> st.live.value.cursor.Done?
  }

  lemma FetchEnds<D(!new)>(x: Context<D>, st: State<D>)
    ensures var (next, a) := Fetch(x, st);
      a.No? ==> next.closed == st.closed && next.readStarted == st.readStarted && (next.live.None? || next.live.value.cursor.Done?)
    ensures Fetch(x, st).0.prefetched == st.prefetched
  {
  }

  lemma ReadRowEnds<D(!new)>(x: Context<D>, st: State<D>)
    requires NoRowIsEnd(st) && !st.closed
    ensures var (next, a) := ReadRow(x, st); NoRowIsEnd(next) && (a.No? ==> AtEnd(next) && AtEnd(AddChanges(next)))
  {
    FetchEnds(x, st.(readStarted := true));
  }

  lemma DoEnds<D(!new)>(x: Context<D>, k: Outcome<D>, st: State<D>, call: Call, ended: bool)
    requires Tracks(x, k, st) && NoRowIsEnd(st) && (ended ==> AtEnd(st))
    requires call.CallNextResult? ==> st.closed || !Failing(x, st)
    ensures var (next, a) := Do(x, st, call); NoRowIsEnd(next) && (StillEnded(call, a, ended) ==> AtEnd(next))
  {
    match call
    case CallHasRows => FetchEnds(x, st);
    case CallRead =>
      if !st.closed {
        ReadRowEnds(x, st);
        var f := AddChanges(ReadRow(x, st).0);
        ReadTracks(x, k, st);
        CloseShuts(x, f);
      }
    case CallNextResult => if !st.closed && !x.singleResult { NextResultTracks(x, k, st); }
    case CallClose => CloseShuts(x, st);
  }

  lemma CloseShuts<D(!new)>(x: Context<D>, st: State<D>)
    ensures Close(x, st).0.closed
  {
  }

  /** Following the rule is enough. */
  lemma {:induction false} CarefulIsDisciplined<D(!new)>(x: Context<D>, k: Outcome<D>, st: State<D>, ended: bool, calls: seq<Call>)
    requires Tracks(x, k, st) && NoRowIsEnd(st) && (ended ==> AtEnd(st)) && Careful(x, st, ended, calls)
    ensures Disciplined(x, st, calls)
    decreases |calls|
  {
    if calls != [] {
      var (next, a) := Do(x, st, calls[0]);
      DoTracks(x, k, st, calls[0]);
      DoEnds(x, k, st, calls[0], ended);
      CarefulIsDisciplined(x, k, next, StillEnded(calls[0], a, ended), calls[1..]);
    }
  }

  /** A caller who follows the rule, whatever fails: `DeferredEqualsEager` without a word about what
      the engine is going to do. */
  lemma CarefulCallers<D(!new)>(x: Context<D>, src: Source, d: D, n: nat, calls: seq<Call>)
    requires Orderly(x.engine, x.command, src, d) && Careful(x, Create(x, src, d, n).0, false, calls)
    ensures
      var k := Eager(x.engine, x.command, src, d, n);
      var st := Drive(x, Create(x, src, d, n).0, calls);
      var shut := Close(x, st).0;
      && st.log <= k.log
      && shut.closed && shut.log == k.log && shut.db == k.db && shut.recordsAffected == Affected(k.log)
  {
    CreateTracks(x, src, d, n);
    CarefulIsDisciplined(x, Eager(x.engine, x.command, src, d, n), Create(x, src, d, n).0, false, calls);
    DeferredEqualsEager(x, src, d, n, calls);
  }
}
