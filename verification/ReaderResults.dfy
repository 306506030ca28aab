/** What a caller sees: which result set is current, and which row of it. */
module ReaderResults {
  import opened Options
  import opened Binding
  import opened Division
  import opened Engine
  import opened ReaderModel
  import opened ReaderFrame
  import opened ReaderEager
  import opened ReaderRuns

  // ---- result sets come in the order of the batch ----

  /** How many calls of `NextResult` found another result. */
  function Position<D(!new)>(x: Context<D>, st: State<D>, calls: seq<Call>): nat
    decreases |calls|
  {
    if calls == [] then 0
    else
      var (next, a) := Do(x, st, calls[0]);
      (if calls[0].CallNextResult? && a.Yes? then 1 else 0) + Position(x, next, calls[1..])
  }

  /** The current statement and what is still to come are the same. */
  ghost predicate SameQuery<D(!new)>(x: Context<D>, st: State<D>, next: State<D>) {
    && next.source == st.source && next.db == st.db && next.changes == st.changes
    && (next.live.Some? <==> st.live.Some?)
    && (st.live.Some? ==> next.live.value == st.live.value.(cursor := next.live.value.cursor))
  }

  lemma FetchKeepsQuery<D(!new)>(x: Context<D>, st: State<D>)
    requires Steady(x, st)
    ensures SameQuery(x, st, Fetch(x, st).0) && Fetch(x, st).0.closed == st.closed
  {
    if st.live.Some? { StepSteady(x, st); }
  }

  lemma CallKeepsQuery<D(!new)>(x: Context<D>, k: Outcome<D>, st: State<D>, call: Call)
    requires Tracks(x, k, st) && !st.closed && !call.CallNextResult?
    ensures var next := Do(x, st, call).0; next.closed || SameQuery(x, st, next)
  {
    match call
    case CallHasRows => FetchKeepsQuery(x, st);
    case CallRead => FetchKeepsQuery(x, st.(readStarted := true));
    case CallClose => CloseEnds(x, k, st);
    case _ =>
  }

  /** The result set numbered `j` is current, or the batch has no further one. */
  ghost predicate InOrder<D(!new)>(x: Context<D>, k: Outcome<D>, st: State<D>, j: nat) {
    !st.closed && !Failing(x, st) ==>
      if st.live.Some? then |Rest(x, st).results| + j + 1 == |k.results| else Rest(x, st).results == []
  }

  lemma ArrivedInOrder<D(!new)>(x: Context<D>, k: Outcome<D>, n: nat, j: nat, next: State<D>, a: Answer)
    requires Arrived(x, k, n, next, a) && (n > 0 ==> n + j == |k.results|)
    ensures InOrder(x, k, next, j)
  {
  }

  lemma NextInOrder<D(!new)>(x: Context<D>, k: Outcome<D>, st: State<D>, j: nat)
    requires Tracks(x, k, st) && !st.closed && !Failing(x, st) && !x.singleResult && InOrder(x, k, st, j)
    ensures var (next, a) := NextResult(x, st); InOrder(x, k, next, if a.Yes? then j + 1 else j)
  {
    var n := |Rest(x, st).results|;
    NextResultTracks(x, k, st);
    var (next, a) := NextResult(x, st);
    ArrivedInOrder(x, k, n, if a.Yes? then j + 1 else j, next, a);
  }

  lemma DoInOrder<D(!new)>(x: Context<D>, k: Outcome<D>, st: State<D>, call: Call, j: nat)
    requires Tracks(x, k, st) && InOrder(x, k, st, j) && (call.CallNextResult? ==> st.closed || !Failing(x, st))
    ensures var (next, a) := Do(x, st, call); InOrder(x, k, next, if call.CallNextResult? && a.Yes? then j + 1 else j)
  {
    if call.CallNextResult? {
      if !st.closed && !x.singleResult { NextInOrder(x, k, st, j); }
    } else if !st.closed {
      CallKeepsQuery(x, k, st, call);
    }
  }

  lemma {:induction false} DriveInOrder<D(!new)>(x: Context<D>, k: Outcome<D>, st: State<D>, calls: seq<Call>, j: nat)
    requires Tracks(x, k, st) && Disciplined(x, st, calls) && InOrder(x, k, st, j)
    ensures InOrder(x, k, Drive(x, st, calls), j + Position(x, st, calls))
    decreases |calls|
  {
    if calls != [] {
      var (next, a) := Do(x, st, calls[0]);
      DoTracks(x, k, st, calls[0]);
      DoInOrder(x, k, st, calls[0], j);
      DriveInOrder(x, k, next, calls[1..], if calls[0].CallNextResult? && a.Yes? then j + 1 else j);
    }
  }

  lemma TrackedResult<D(!new)>(x: Context<D>, k: Outcome<D>, st: State<D>, j: nat)
    requires Tracks(x, k, st) && InOrder(x, k, st, j) && !st.closed && st.live.Some? && !Failing(x, st)
    ensures j < |k.results| && Executed(x, st).rows == k.results[j]
  {
  }

  /** After `j` successful calls of `NextResult` the current query has the rows of the result set
      `j` of the batch: those it has after exactly the writes that precede it. */
  lemma ResultsInOrder<D(!new)>(x: Context<D>, src: Source, d: D, n: nat, calls: seq<Call>)
    requires Orderly(x.engine, x.command, src, d) && Disciplined(x, Create(x, src, d, n).0, calls)
    ensures
      var k := Eager(x.engine, x.command, src, d, n);
      var st := Drive(x, Create(x, src, d, n).0, calls);
      var j := Position(x, Create(x, src, d, n).0, calls);
      !st.closed && st.live.Some? && !Failing(x, st) ==> j < |k.results| && Executed(x, st).rows == k.results[j]
  {
    var k := Eager(x.engine, x.command, src, d, n);
    var (first, a) := Create(x, src, d, n);
    CreateTracks(x, src, d, n);
    if !a.Thrown? { ArrivedInOrder(x, k, |k.results|, 0, first, a); }
    DriveTracks(x, k, first, calls);
    DriveInOrder(x, k, first, calls, 0);
    var st := Drive(x, first, calls);
    if !st.closed && st.live.Some? && !Failing(x, st) {
      TrackedResult(x, k, st, Position(x, first, calls));
    }
  }

  // ---- the rows of the current query ----

  function Reads(calls: seq<Call>): nat {
    if calls == [] then 0 else (if calls[0].CallRead? then 1 else 0) + Reads(calls[1..])
  }

  predicate PeeksAndReads(calls: seq<Call>) {
    forall c :: c in calls ==> c.CallHasRows? || c.CallRead?
  }

  /** The reader has just arrived at a query that will succeed. */
  ghost predicate AtQuery<D(!new)>(x: Context<D>, st: State<D>) {
    && !st.closed && !st.hasRow && !st.prefetched && !st.readStarted
    && st.live.Some? && st.live.value.cursor.Fresh? && !Executed(x, st).error
  }

  /** The fields of a reader over the execution `run` of its query, at place `p`: before the first
      `Read`, on row `p`, or after the first or the second `Read` past the last row. */
  ghost predicate Shown<D(!new)>(x: Context<D>, run: Execution<D>, st: State<D>, p: nat) {
    var n := |run.rows|;
    && !st.closed && st.live.Some? && p <= n + 2 && st.readStarted == (p > 0)
    && if p == 0 then
         if st.prefetched then st.hasRow == (n > 0) && st.live.value.cursor == if n > 0 then Rows(run, 1) else Done
         else !st.hasRow && st.live.value.cursor == Fresh && Executed(x, st) == run
       else
         && st.hasRow == (p <= n)
         && (n > 0 ==> st.prefetched == (p == n + 1))
         && st.live.value.cursor == if p <= n then Rows(run, p) else Done
  }

  function RowAt(rows: seq<Row>, p: nat): Option<Row> {
    if 0 < p <= |rows| then Some(rows[p - 1]) else None
  }

  /** A reader in single-row mode closes when a `Read` returns false. */
  predicate ShutBySingleRow<D(!new)>(x: Context<D>, run: Execution<D>, r: nat) {
    x.singleRow && r > |run.rows|
  }

  lemma RowShown<D(!new)>(x: Context<D>, run: Execution<D>, st: State<D>, p: nat)
    requires Shown(x, run, st, p)
    ensures CurrentRow(st) == RowAt(run.rows, p)
  {
  }

  lemma PeekShows<D(!new)>(x: Context<D>, run: Execution<D>, st: State<D>, p: nat)
    requires Shown(x, run, st, p) && !run.error
    ensures Shown(x, run, HasRows(x, st).0, p)
    ensures HasRows(x, st).1 == Answered(if p == 0 then |run.rows| > 0 else p <= |run.rows|)
  {
  }

  lemma FirstReadShows<D(!new)>(x: Context<D>, run: Execution<D>, st: State<D>)
    requires Shown(x, run, st, 0) && !run.error && !ShutBySingleRow(x, run, 1)
    ensures Shown(x, run, Read(x, st).0, 1) && Read(x, st).1 == Answered(1 <= |run.rows|)
  {
  }

  lemma NextReadShows<D(!new)>(x: Context<D>, run: Execution<D>, st: State<D>, p: nat)
    requires Shown(x, run, st, p) && 0 < p <= |run.rows| && !run.error && !ShutBySingleRow(x, run, p + 1)
    ensures Shown(x, run, Read(x, st).0, p + 1) && Read(x, st).1 == Answered(p + 1 <= |run.rows|)
  {
  }

  lemma ReadShows<D(!new)>(x: Context<D>, run: Execution<D>, st: State<D>, p: nat)
    requires Shown(x, run, st, p) && p <= |run.rows| && !run.error && !ShutBySingleRow(x, run, p + 1)
    ensures Shown(x, run, Read(x, st).0, p + 1) && Read(x, st).1 == Answered(p + 1 <= |run.rows|)
  {
    if p == 0 { FirstReadShows(x, run, st); } else { NextReadShows(x, run, st, p); }
  }

  lemma {:induction false} CallsShow<D(!new)>(x: Context<D>, run: Execution<D>, st: State<D>, p: nat, calls: seq<Call>)
    requires Shown(x, run, st, p) && !run.error && PeeksAndReads(calls) && p + Reads(calls) <= |run.rows| + 1
    requires !ShutBySingleRow(x, run, p + Reads(calls))
    ensures Shown(x, run, Drive(x, st, calls), p + Reads(calls))
    decreases |calls|
  {
    if calls != [] {
      if calls[0].CallRead? {
        ReadShows(x, run, st, p);
        CallsShow(x, run, Read(x, st).0, p + 1, calls[1..]);
      } else {
        PeekShows(x, run, st, p);
        CallsShow(x, run, HasRows(x, st).0, p, calls[1..]);
      }
    }
  }

  /** Prefetching is invisible, for every query that succeeds, one that writes included.  On a result
      of `n` rows, after any mix of peeks and up to `n + 1` reads: before the first `Read` there is
      no current row, though one may have been fetched; after read `r` the current row is row `r`,
      and none after read `n + 1`; the next `Read` answers accordingly, and `HasRows` tells, before
      the first `Read`, whether there are rows at all, and later whether the last one found one. */
  lemma PrefetchInvisible<D(!new)>(x: Context<D>, first: State<D>, calls: seq<Call>)
    requires AtQuery(x, first) && PeeksAndReads(calls) && Reads(calls) <= |Executed(x, first).rows| + 1
    requires !ShutBySingleRow(x, Executed(x, first), Reads(calls))
    ensures
      var run := Executed(x, first);
      var n, r, st := |run.rows|, Reads(calls), Drive(x, first, calls);
      && CurrentRow(st) == RowAt(run.rows, r)
      && (r <= n && !ShutBySingleRow(x, run, r + 1) ==> Read(x, st).1 == Answered(r + 1 <= n))
      && HasRows(x, st).1 == Answered(if r == 0 then n > 0 else r <= n)
  {
    var run, r, st := Executed(x, first), Reads(calls), Drive(x, first, calls);
    CallsShow(x, run, first, 0, calls);
    RowShown(x, run, st, r);
    PeekShows(x, run, st, r);
    if r <= |run.rows| && !ShutBySingleRow(x, run, r + 1) { ReadShows(x, run, st, r); }
  }

  /** In single-row mode the `Read` past the last row of a query that succeeds closes the reader, and
      no call before it does; otherwise none does. */
  lemma SingleRowEnds<D(!new)>(x: Context<D>, first: State<D>, calls: seq<Call>)
    requires AtQuery(x, first) && PeeksAndReads(calls) && Reads(calls) == |Executed(x, first).rows|
    ensures
      var st := Drive(x, first, calls);
      !st.closed && Read(x, st).0.closed == x.singleRow && !Read(x, st).1.Yes?
  {
    var run, st := Executed(x, first), Drive(x, first, calls);
    CallsShow(x, run, first, 0, calls);
    EndCloses(x, run, st);
  }

  lemma EndCloses<D(!new)>(x: Context<D>, run: Execution<D>, st: State<D>)
    requires Shown(x, run, st, |run.rows|) && !run.error
    ensures Read(x, st).0.closed == x.singleRow && !Read(x, st).1.Yes?
  {
    assert ReadRow(x, st).1.No? && !ReadRow(x, st).0.closed;
    CloseShuts(x, AddChanges(ReadRow(x, st).0));
  }

  // ---- no current result ----

  /** Without a current statement no row is said to be there. */
  ghost predicate NoFalseRow<D(!new)>(st: State<D>) {
    !st.closed && st.live.None? ==> !st.hasRow
  }

  /** `NextResultCore` answers true exactly when it has come to a query, not yet stepped, and false
      exactly when nothing is current. */
  lemma {:induction false} NextResultAnswers<D(!new)>(x: Context<D>, st: State<D>)
    requires !st.closed
    ensures var (next, a) := Advance(x, st);
      && !next.closed && NoFalseRow(next)
      && (a.Yes? ==> next.live.Some? && next.live.value.statement.columns > 0 && next.live.value.cursor.Fresh?)
      && (a.No? ==> next.live.None?)
    decreases Left(st.source)
  {
    if ReleaseThrows(st) {
      ReleaseTurn(x, st);
    } else {
      var n := PrepareAndBind(x.engine, x.command, st.source, st.db, true);
      if Plain(x.engine, n, st.db) {
        PlainTurn(x, st, n);
        NextResultAnswers(x, RunToEnd(x, Take(Detached(AddChanges(st)), n.statement, n.slots, n.src)).0);
      } else {
        StopTurn(x, st, n);
      }
    }
  }

  lemma FetchNoRow<D(!new)>(x: Context<D>, st: State<D>)
    requires NoFalseRow(st)
    ensures NoFalseRow(Fetch(x, st).0)
  {
  }

  lemma DoNoRow<D(!new)>(x: Context<D>, st: State<D>, call: Call)
    requires NoFalseRow(st)
    ensures NoFalseRow(Do(x, st, call).0)
  {
    match call
    case CallHasRows => FetchNoRow(x, st);
    case CallRead =>
      FetchNoRow(x, st.(readStarted := true));
      CloseShuts(x, AddChanges(ReadRow(x, st).0));
    case CallNextResult => if !st.closed && !x.singleResult { NextResultAnswers(x, st); }
    case CallClose => CloseShuts(x, st);
  }

  lemma {:induction false} DriveNoRow<D(!new)>(x: Context<D>, st: State<D>, calls: seq<Call>)
    requires NoFalseRow(st)
    ensures NoFalseRow(Drive(x, st, calls))
    decreases |calls|
  {
    if calls != [] {
      DoNoRow(x, st, calls[0]);
      DriveNoRow(x, Do(x, st, calls[0]).0, calls[1..]);
    }
  }

  /** Nothing but what the caller has looked at is different. */
  ghost predicate OnlyLooked<D(!new)>(st: State<D>, next: State<D>) {
    next == st.(hasRow := false, prefetched := next.prefetched, readStarted := next.readStarted)
  }

  lemma {:induction false} LookingFindsNothing<D(!new)>(x: Context<D>, st: State<D>, calls: seq<Call>)
    requires !st.closed && st.live.None? && !st.hasRow && !x.singleRow && PeeksAndReads(calls)
    ensures OnlyLooked(st, Drive(x, st, calls))
    decreases |calls|
  {
    if calls != [] { LookingFindsNothing(x, Do(x, st, calls[0]).0, calls[1..]); }
  }

  /** Where there is no current result, after a batch without a query or behind the last one, and
      whatever the caller did before: any mix of `HasRows` and `Read` answers false, shows no row, and
      executes nothing; in single-row mode the first `Read` closes the reader, as `Close` does. */
  lemma NoResultNoRows<D(!new)>(x: Context<D>, src: Source, d: D, n: nat, before: seq<Call>, calls: seq<Call>)
    requires PeeksAndReads(calls) && (x.singleRow ==> Reads(calls) == 0)
    requires var st := Drive(x, Create(x, src, d, n).0, before); !st.closed && st.live.None?
    ensures
      var st := Drive(x, Create(x, src, d, n).0, before);
      var end := Drive(x, st, calls);
      && OnlyLooked(st, end) && CurrentRow(end) == None && HasRows(x, end).1.No?
      && if x.singleRow then Read(x, end).0.closed && !Read(x, end).1.Yes? && Read(x, end).0.log == Close(x, st).0.log
         else Read(x, end).1.No? && OnlyLooked(st, Read(x, end).0)
  {
    var fields, first := Fields(src, d, n), Create(x, src, d, n).0;
    NextResultAnswers(x, fields);
    CloseShuts(x, Advance(x, fields).0);
    DriveNoRow(x, first, before);
    var st := Drive(x, first, before);
    if x.singleRow {
      PeeksFindNothing(x, st, calls);
      LastReadCloses(x, st, Drive(x, st, calls));
    } else {
      LookingFindsNothing(x, st, calls);
    }
  }

  lemma {:induction false} PeeksFindNothing<D(!new)>(x: Context<D>, st: State<D>, calls: seq<Call>)
    requires !st.closed && st.live.None? && !st.hasRow && PeeksAndReads(calls) && Reads(calls) == 0
    ensures OnlyLooked(st, Drive(x, st, calls))
    decreases |calls|
  {
    if calls != [] { PeeksFindNothing(x, Do(x, st, calls[0]).0, calls[1..]); }
  }

  lemma LastReadCloses<D(!new)>(x: Context<D>, st: State<D>, end: State<D>)
    requires !st.closed && st.live.None? && OnlyLooked(st, end) && x.singleRow
    ensures Read(x, end).0.closed && !Read(x, end).1.Yes? && Read(x, end).0.log == Close(x, st).0.log
  {
    var f := AddChanges(ReadRow(x, end).0);
    assert f == end.(readStarted := true, prefetched := f.prefetched, hasRow := false);
    CloseShuts(x, f);
    DrainLooked(x, st, f.hasRow, f.prefetched, f.readStarted);
  }

  // ---- reading on behind the last row ----

  /** Executing the current statement again gives the same run: it is a read-only query. */
  ghost predicate Repeats<D(!new)>(x: Context<D>, run: Execution<D>, st: State<D>) {
    st.live.Some? && st.live.value.statement.readOnly && st.live.value.statement.columns > 0 && Executed(x, st) == run
  }

  /** Where `Read` number `r` leads in a result of `n` rows, if the query is read-only: two reads
      past the last row it starts again. */
  function Place(r: nat, n: nat): nat {
    if r == 0 then 0 else (r - 1) % (n + 2) + 1
  }

  lemma NextPlace(r: nat, n: nat)
    ensures Place(r, n) <= n + 2 && Place(r + 1, n) == if Place(r, n) == n + 2 then 1 else Place(r, n) + 1
  {
    if r > 0 { NextQuotient(r - 1, n + 2); }
  }

  lemma StartRepeats<D(!new)>(x: Context<D>, run: Execution<D>, st: State<D>)
    requires Repeats(x, run, st)
    ensures Repeats(x, run, Start(x, st).0)
  {
  }

  lemma StepRepeats<D(!new)>(x: Context<D>, run: Execution<D>, st: State<D>)
    requires Repeats(x, run, st)
    ensures Repeats(x, run, Step(x, st).0)
  {
    if !st.live.value.cursor.Rows? { StartRepeats(x, run, st); }
  }

  lemma PeekRepeats<D(!new)>(x: Context<D>, run: Execution<D>, st: State<D>)
    requires Repeats(x, run, st)
    ensures Repeats(x, run, HasRows(x, st).0)
  {
    StepRepeats(x, run, st);
  }

  lemma ReadRepeats<D(!new)>(x: Context<D>, run: Execution<D>, st: State<D>)
    requires Repeats(x, run, st) && (ReadRow(x, st).1.No? ==> !x.singleRow)
    ensures Repeats(x, run, Read(x, st).0)
  {
    StepRepeats(x, run, st.(readStarted := true));
  }

  /** The second `Read` past the last row. */
  lemma PastReadShows<D(!new)>(x: Context<D>, run: Execution<D>, st: State<D>)
    requires Shown(x, run, st, |run.rows| + 1) && Repeats(x, run, st) && !run.error && !x.singleRow
    ensures Shown(x, run, Read(x, st).0, |run.rows| + 2) && Read(x, st).1.No?
  {
  }

  /** The one after it. */
  lemma AgainReadShows<D(!new)>(x: Context<D>, run: Execution<D>, st: State<D>)
    requires Shown(x, run, st, |run.rows| + 2) && Repeats(x, run, st) && !run.error && !x.singleRow
    ensures Shown(x, run, Read(x, st).0, 1) && Read(x, st).1 == Answered(1 <= |run.rows|)
  {
  }

  lemma AnyReadShows<D(!new)>(x: Context<D>, run: Execution<D>, st: State<D>, r: nat)
    requires Shown(x, run, st, Place(r, |run.rows|)) && Repeats(x, run, st) && !run.error && !x.singleRow
    ensures Shown(x, run, Read(x, st).0, Place(r + 1, |run.rows|)) && Repeats(x, run, Read(x, st).0)
    ensures Read(x, st).1 == Answered(Place(r + 1, |run.rows|) <= |run.rows|)
  {
    var n := |run.rows|;
    NextPlace(r, n);
    ReadRepeats(x, run, st);
    if Place(r, n) <= n {
      ReadShows(x, run, st, Place(r, n));
    } else if Place(r, n) == n + 1 {
      PastReadShows(x, run, st);
    } else {
      AgainReadShows(x, run, st);
    }
  }

  lemma {:induction false} CallsShowAgain<D(!new)>(x: Context<D>, run: Execution<D>, st: State<D>, r: nat, calls: seq<Call>)
    requires Shown(x, run, st, Place(r, |run.rows|)) && Repeats(x, run, st) && !run.error && !x.singleRow && PeeksAndReads(calls)
    ensures Shown(x, run, Drive(x, st, calls), Place(r + Reads(calls), |run.rows|)) && Repeats(x, run, Drive(x, st, calls))
    decreases |calls|
  {
    if calls != [] {
      if calls[0].CallRead? {
        AnyReadShows(x, run, st, r);
        CallsShowAgain(x, run, Read(x, st).0, r + 1, calls[1..]);
      } else {
        PeekShows(x, run, st, Place(r, |run.rows|));
        PeekRepeats(x, run, st);
        CallsShowAgain(x, run, HasRows(x, st).0, r, calls[1..]);
      }
    }
  }

  /** A read-only query can be read on and on: `Read` leads through its rows, answers false twice,
      and starts again. */
  lemma ReadingIsPeriodic<D(!new)>(x: Context<D>, first: State<D>, calls: seq<Call>)
    requires AtQuery(x, first) && Repeats(x, Executed(x, first), first) && !x.singleRow && PeeksAndReads(calls)
    ensures
      var rows := Executed(x, first).rows;
      var n, r, st := |rows|, Reads(calls), Drive(x, first, calls);
      CurrentRow(st) == RowAt(rows, Place(r, n)) && Read(x, st).1 == Answered(Place(r + 1, n) <= n)
  {
    var run, r, st := Executed(x, first), Reads(calls), Drive(x, first, calls);
    CallsShowAgain(x, run, first, 0, calls);
    RowShown(x, run, st, Place(r, |run.rows|));
    AnyReadShows(x, run, st, r);
  }

  // ---- a query that writes, counted ----

  /** At place `p` of a query that writes, reached with the counter at `n` and `before` records
      affected: the `Read` past the last row counts it. */
  ghost predicate Counted<D(!new)>(run: Execution<D>, before: int, n: nat, st: State<D>, p: nat) {
    && st.live.Some? && !st.live.value.statement.readOnly
    && st.changes == (if st.live.value.cursor.Done? then Counter(run, n) else n)
    && st.recordsAffected == if p <= |run.rows| then before else Total(before, Counter(run, n))
  }

  lemma PeekCounts<D(!new)>(x: Context<D>, run: Execution<D>, before: int, n: nat, st: State<D>, p: nat)
    requires Shown(x, run, st, p) && Counted(run, before, n, st, p) && !run.error
    ensures Counted(run, before, n, HasRows(x, st).0, p)
  {
  }

  lemma FirstReadCounts<D(!new)>(x: Context<D>, run: Execution<D>, before: int, n: nat, st: State<D>)
    requires Shown(x, run, st, 0) && Counted(run, before, n, st, 0) && !run.error && !x.singleRow
    ensures Counted(run, before, n, Read(x, st).0, 1)
  {
  }

  lemma NextReadCounts<D(!new)>(x: Context<D>, run: Execution<D>, before: int, n: nat, st: State<D>, p: nat)
    requires Shown(x, run, st, p) && Counted(run, before, n, st, p) && 0 < p <= |run.rows| && !run.error && !x.singleRow
    ensures Counted(run, before, n, Read(x, st).0, p + 1)
  {
  }

  lemma {:induction false} CallsCount<D(!new)>(x: Context<D>, run: Execution<D>, before: int, n: nat, st: State<D>, p: nat,
      calls: seq<Call>)
    requires Shown(x, run, st, p) && Counted(run, before, n, st, p) && !run.error && !x.singleRow
    requires PeeksAndReads(calls) && p + Reads(calls) <= |run.rows| + 1
    ensures var end := Drive(x, st, calls);
      Shown(x, run, end, p + Reads(calls)) && Counted(run, before, n, end, p + Reads(calls))
    decreases |calls|
  {
    if calls != [] {
      if calls[0].CallRead? {
        ReadShows(x, run, st, p);
        if p == 0 { FirstReadCounts(x, run, before, n, st); } else { NextReadCounts(x, run, before, n, st, p); }
        CallsCount(x, run, before, n, Read(x, st).0, p + 1, calls[1..]);
      } else {
        PeekShows(x, run, st, p);
        PeekCounts(x, run, before, n, st, p);
        CallsCount(x, run, before, n, HasRows(x, st).0, p, calls[1..]);
      }
    }
  }

  /** Records affected by a query that writes, such as INSERT .. RETURNING.  The `Read` that finds no
      further row adds its count, and `NextResult` goes on with the counter added once more: the count a
      second time after that `Read`; before the end of the rows is seen, what the counter showed before
      the query. */
  lemma WritingQueryCounts<D(!new)>(x: Context<D>, first: State<D>, calls: seq<Call>)
    requires AtQuery(x, first) && !first.live.value.statement.readOnly && !x.singleRow && !x.singleResult
    requires PeeksAndReads(calls) && Reads(calls) <= |Executed(x, first).rows| + 1
    ensures
      var run, before, st := Executed(x, first), first.recordsAffected, Drive(x, first, calls);
      var c, over := Counter(run, first.changes), Reads(calls) > |run.rows|;
      && st.live.Some? && st.recordsAffected == (if over then Total(before, c) else before)
      && var again := if over then Total(Total(before, c), c)
                      else Total(before, if st.live.value.cursor.Done? then c else first.changes);
         NextResult(x, st) == Advance(x, Detached(st).(recordsAffected := again))
  {
    var run, st := Executed(x, first), Drive(x, first, calls);
    CallsCount(x, run, first.recordsAffected, first.changes, first, 0, calls);
    AdvanceFree(x, st);
  }

  /** A writing query of one row, read to its end and moved on from: one row has been written, two are
      reported. */
  lemma ReturningCountsTwice()
    ensures
      var x := Context(Demo(), NO_PARAMETERS, false, false);
      var st := Drive(x, Create(x, Cached([RETURNING], 0), 0, 0).0, [CallRead, CallRead]);
      NextResult(x, st).0.recordsAffected == 2 && NextResult(x, st).0.log == [Write(RETURNING, [], Some(1), 1)]
  {
    var x := Context(Demo(), NO_PARAMETERS, false, false);
    var first := Create(x, Cached([RETURNING], 0), 0, 0).0;
    assert Bind([], [], true) == Ok([]);
    assert first == Fields(Cached([RETURNING], 1), 0, 0).(live := Some(Live(RETURNING, [], Fresh)));
    assert Reads([CallRead, CallRead]) == 2 by { assert [CallRead, CallRead][1..] == [CallRead]; }
    ReadsReturning(x, first);
    WritingQueryCounts(x, first, [CallRead, CallRead]);
  }
}
