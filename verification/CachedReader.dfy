/** A reader over the prepared statements of a command and one that parses its text: the same
    answers to the same calls. */
module CachedReader {
  import opened Options
  import opened Binding
  import opened Engine
  import opened ReaderModel
  import opened ReaderFrame
  import opened ReaderEager
  import opened ReaderRuns
  import opened BatchSplit

  // ---- equally far ----

  /** What is left of the text is what is left of the prepared statements. */
  ghost predicate Aligned<D(!new)>(e: Engine<D>, f: Forecast<D>, p: Source, q: Source) {
    && p.Parse? && p.text == f.text && q.Cached? && q.index <= |q.statements|
    && forall d :: f.arises(p.offset, d) ==> Split(e, p.text, p.offset, d) == Some(q.statements[q.index..])
  }

  /** The database may arise where the reader is, and goes on to whatever the current statement does. */
  ghost predicate Expected<D(!new)>(e: Engine<D>, f: Forecast<D>, st: State<D>) {
    && st.source.Parse? && f.arises(st.source.offset, st.db)
    && (st.live.Some? ==> Absorbs(e, st.live.value.statement, f, st.source.offset))
  }

  /** Two readers that differ only in where their statements come from, and have got equally far. */
  ghost predicate Twins<D(!new)>(x: Context<D>, f: Forecast<D>, a: State<D>, b: State<D>) {
    b == a.(source := b.source) && Aligned(x.engine, f, a.source, b.source) && Expected(x.engine, f, a)
  }

  /** The same, with the current statement let go. */
  ghost predicate EndTwins<D(!new)>(x: Context<D>, f: Forecast<D>, a: State<D>, b: State<D>) {
    b == a.(source := b.source) && Twins(x, f, a.(live := None), b.(live := None))
  }

  /** The next statement is the same for both, and leaves them equally far. */
  ghost predicate SameNext<D(!new)>(e: Engine<D>, f: Forecast<D>, d: D, p: Next, q: Next) {
    && (p.Ready? <==> q.Ready?) && (p.Threw? <==> q.Threw?) && Aligned(e, f, p.src, q.src)
    && f.arises(p.src.offset, d)
    && (p.Ready? ==> p.statement == q.statement && p.slots == q.slots && Absorbs(e, p.statement, f, p.src.offset))
  }

  lemma NextTwin<D(!new)>(e: Engine<D>, c: Command, f: Forecast<D>, p: Source, q: Source, d: D, strict: bool)
    requires Aligned(e, f, p, q) && Foreseen(e, f) && f.arises(p.offset, d)
    ensures SameNext(e, f, d, PrepareAndBind(e, c, p, d, strict), PrepareAndBind(e, c, q, d, strict))
  {
    SplitStep(e, p.text, p.offset, d, q.statements, q.index);
    assert Leads(e, f, p.offset, d);
    var n := PrepareAndBind(e, c, p, d, strict);
    if n.Finished? { NothingStays(e, p.text, p.offset, d); }
    forall d' | f.arises(n.src.offset, d')
      ensures Split(e, n.src.text, n.src.offset, d') == Split(e, n.src.text, n.src.offset, d)
    {
      SplitForeseen(e, f, n.src.offset, d', d);
    }
  }

  // ---- running the current statement ----

  lemma StepTwins<D(!new)>(x: Context<D>, f: Forecast<D>, a: State<D>, b: State<D>)
    requires Twins(x, f, a, b) && a.live.Some?
    ensures Step(x, a).1 == Step(x, b).1 && Twins(x, f, Step(x, a).0, Step(x, b).0)
  {
    AlikeTwins(x, f, a, b, Step(x, a), Step(x, b)) by {
      assert [] + a.log == a.log;
      StepAlike(x, [], a, b);
      StepExpected(x, f, a);
    }
  }

  lemma AlikeTwins<D(!new)>(x: Context<D>, f: Forecast<D>, a: State<D>, b: State<D>,
      p: (State<D>, Answer), q: (State<D>, Answer))
    requires Twins(x, f, a, b) && Moved([], a, b, p, q) && Expected(x.engine, f, p.0)
    ensures p.1 == q.1 && Twins(x, f, p.0, q.0)
  {
    assert [] + p.0.log == p.0.log;
  }

  lemma StartExpected<D(!new)>(x: Context<D>, f: Forecast<D>, st: State<D>)
    requires Expected(x.engine, f, st) && st.live.Some?
    ensures Expected(x.engine, f, Start(x, st).0) && Start(x, st).0.source == st.source && Start(x, st).0.live.Some?
  {
    assert f.arises(st.source.offset, Executed(x, st).after);
  }

  lemma StepExpected<D(!new)>(x: Context<D>, f: Forecast<D>, st: State<D>)
    requires Expected(x.engine, f, st) && st.live.Some?
    ensures Expected(x.engine, f, Step(x, st).0) && Step(x, st).0.source == st.source && Step(x, st).0.live.Some?
  {
    if !st.live.value.cursor.Rows? { StartExpected(x, f, st); }
  }

  lemma {:induction false} RunExpected<D(!new)>(x: Context<D>, f: Forecast<D>, st: State<D>)
    requires Expected(x.engine, f, st) && st.live.Some?
    ensures Expected(x.engine, f, RunToEnd(x, st).0)
    decreases StepsLeft(x, st)
  {
    StepExpected(x, f, st);
    var (next, a) := Step(x, st);
    if a.Yes? { RunExpected(x, f, next); }
  }

  /** Both run their current statement to its end, and are still equally far. */
  lemma RunTwins<D(!new)>(x: Context<D>, f: Forecast<D>, a: State<D>, b: State<D>)
    requires Twins(x, f, a, b) && a.live.Some?
    ensures RunToEnd(x, a).1 == RunToEnd(x, b).1 && Twins(x, f, RunToEnd(x, a).0, RunToEnd(x, b).0)
    ensures RunToEnd(x, a).0.source == a.source && RunToEnd(x, b).0.source == b.source
  {
    assert [] + a.log == a.log;
    RunAlike(x, [], a, b);
    RunExpected(x, f, a);
    AlikeTwins(x, f, a, b, RunToEnd(x, a), RunToEnd(x, b));
  }

  // ---- moving on ----

  ghost predicate AdvanceAlike<D(!new)>(x: Context<D>, f: Forecast<D>, a: State<D>, b: State<D>) {
    Advance(x, a).1 == Advance(x, b).1 && Twins(x, f, Advance(x, a).0, Advance(x, b).0)
  }

  /** Two readers about to take the next statement, which is the same for both. */
  ghost predicate AboutTo<D(!new)>(x: Context<D>, f: Forecast<D>, a: State<D>, b: State<D>, p: Next, q: Next) {
    && Twins(x, f, a, b) && !ReleaseThrows(b) && SameNext(x.engine, f, a.db, p, q)
    && p == PrepareAndBind(x.engine, x.command, a.source, a.db, true)
    && q == PrepareAndBind(x.engine, x.command, b.source, b.db, true)
  }

  lemma StopTwins<D(!new)>(x: Context<D>, f: Forecast<D>, a: State<D>, b: State<D>, p: Next, q: Next)
    requires AboutTo(x, f, a, b, p, q) && !p.Ready?
    ensures AdvanceAlike(x, f, a, b)
  {
    StopTurn(x, a, p);
    StopTurn(x, b, q);
  }

  lemma TakenTwins<D(!new)>(x: Context<D>, f: Forecast<D>, a: State<D>, b: State<D>, p: Next, q: Next)
    requires AboutTo(x, f, a, b, p, q) && p.Ready?
    ensures Twins(x, f, Take(Detached(AddChanges(a)), p.statement, p.slots, p.src),
                  Take(Detached(AddChanges(b)), p.statement, p.slots, q.src))
  {
  }

  lemma QueryTwins<D(!new)>(x: Context<D>, f: Forecast<D>, a: State<D>, b: State<D>, p: Next, q: Next)
    requires AboutTo(x, f, a, b, p, q) && p.Ready? && p.statement.columns > 0
    ensures AdvanceAlike(x, f, a, b)
  {
    TakenTwins(x, f, a, b, p, q);
    AdvanceTurn(x, a);
    AdvanceTurn(x, b);
  }

  lemma FailingTwins<D(!new)>(x: Context<D>, f: Forecast<D>, a: State<D>, b: State<D>, p: Next, q: Next)
    requires AboutTo(x, f, a, b, p, q) && p.Ready? && p.statement.columns == 0
    requires x.engine.execute(p.statement, p.slots, a.db).error
    ensures AdvanceAlike(x, f, a, b)
  {
    TakenTwins(x, f, a, b, p, q);
    AdvanceTurn(x, a);
    AdvanceTurn(x, b);
  }

  lemma {:induction false} PlainTwins<D(!new)>(x: Context<D>, f: Forecast<D>, a: State<D>, b: State<D>, left: nat,
      r: State<D>, s: State<D>)
    requires Foreseen(x.engine, f) && Twins(x, f, r, s) && r.live.Some? && Left(r.source) < left
    requires !ReleaseThrows(RunToEnd(x, s).0)
    requires Advance(x, a) == Advance(x, RunToEnd(x, r).0) && Advance(x, b) == Advance(x, RunToEnd(x, s).0)
    ensures AdvanceAlike(x, f, a, b)
    decreases left, 0
  {
    RunTwins(x, f, r, s);
    AdvanceTwins(x, f, RunToEnd(x, r).0, RunToEnd(x, s).0);
  }

  lemma {:induction false} AdvanceTwins<D(!new)>(x: Context<D>, f: Forecast<D>, a: State<D>, b: State<D>)
    requires Twins(x, f, a, b) && Foreseen(x.engine, f) && !ReleaseThrows(b)
    ensures AdvanceAlike(x, f, a, b)
    decreases Left(a.source)
  {
    NextTwin(x.engine, x.command, f, a.source, b.source, a.db, true);
    var p := PrepareAndBind(x.engine, x.command, a.source, a.db, true);
    var q := PrepareAndBind(x.engine, x.command, b.source, b.db, true);
    if !p.Ready? {
      StopTwins(x, f, a, b, p, q);
    } else if p.statement.columns > 0 {
      QueryTwins(x, f, a, b, p, q);
    } else if x.engine.execute(p.statement, p.slots, a.db).error {
      FailingTwins(x, f, a, b, p, q);
    } else {
      TakenTwins(x, f, a, b, p, q);
      PlainTurn(x, a, p);
      PlainTurn(x, b, q);
      PlainTwins(x, f, a, b, Left(a.source), Take(Detached(AddChanges(a)), p.statement, p.slots, p.src),
                 Take(Detached(AddChanges(b)), p.statement, p.slots, q.src));
    }
  }

  lemma {:induction false} TakenDrainTwins<D(!new)>(x: Context<D>, f: Forecast<D>, p: State<D>, q: State<D>)
    requires Twins(x, f, p, q) && p.live.Some? && Foreseen(x.engine, f)
    ensures EndTwins(x, f, AfterDrained(x, RunToEnd(x, p)), AfterDrained(x, RunToEnd(x, q)))
    decreases Left(p.source), 1
  {
    RunTwins(x, f, p, q);
    if !RunToEnd(x, p).1.Thrown? { DrainTwins(x, f, AddChanges(RunToEnd(x, p).0), AddChanges(RunToEnd(x, q).0)); }
  }

  lemma {:induction false} DrainTwins<D(!new)>(x: Context<D>, f: Forecast<D>, a: State<D>, b: State<D>)
    requires Twins(x, f, a, b) && Foreseen(x.engine, f)
    ensures EndTwins(x, f, DrainRest(x, a), DrainRest(x, b))
    decreases Left(a.source), 0
  {
    NextTwin(x.engine, x.command, f, a.source, b.source, a.db, false);
    var p := PrepareAndBind(x.engine, x.command, a.source, a.db, false);
    var q := PrepareAndBind(x.engine, x.command, b.source, b.db, false);
    if p.Ready? {
      TakenDrainTwins(x, f, Take(a, p.statement, p.slots, p.src), Take(b, p.statement, p.slots, q.src));
    }
  }

  // ---- the calls ----

  /** The current handle has failed, and not been reset since. */
  predicate Failed<D(!new)>(st: State<D>) {
    st.live.Some? && st.live.value.cursor.Broken?
  }

  lemma FlagTwins<D(!new)>(x: Context<D>, f: Forecast<D>, a: State<D>, b: State<D>, prefetched: bool)
    requires Twins(x, f, a, b)
    ensures Twins(x, f, a.(readStarted := true, prefetched := prefetched), b.(readStarted := true, prefetched := prefetched))
    ensures Twins(x, f, AddChanges(a), AddChanges(b))
  {
  }

  lemma DrainAllTwins<D(!new)>(x: Context<D>, f: Forecast<D>, a: State<D>, b: State<D>)
    requires Twins(x, f, a, b) && Foreseen(x.engine, f)
    ensures EndTwins(x, f, Drain(x, a), Drain(x, b))
  {
    if a.live.None? {
      DrainTwins(x, f, a, b);
    } else {
      RunTwins(x, f, a, b);
      FlagTwins(x, f, RunToEnd(x, a).0, RunToEnd(x, b).0, false);
      DrainTwins(x, f, AddChanges(RunToEnd(x, a).0), AddChanges(RunToEnd(x, b).0));
    }
  }

  /** Closing answers the same exactly if it meets no failing statement: the prepared one reports
      its error once more when it is reset. */
  lemma CloseTwins<D(!new)>(x: Context<D>, f: Forecast<D>, a: State<D>, b: State<D>)
    requires Twins(x, f, a, b) && Foreseen(x.engine, f)
    ensures Close(x, a).1 == Close(x, b).1 <==> a.closed || !Failed(Drain(x, a))
    ensures a.closed || !Failed(Drain(x, a)) ==> Twins(x, f, Close(x, a).0, Close(x, b).0)
    ensures Close(x, a).0.log == Close(x, b).0.log && Close(x, a).0.db == Close(x, b).0.db
  {
    if !a.closed { DrainAllTwins(x, f, a, b); }
  }

  lemma FetchTwins<D(!new)>(x: Context<D>, f: Forecast<D>, a: State<D>, b: State<D>)
    requires Twins(x, f, a, b)
    ensures Fetch(x, a).1 == Fetch(x, b).1 && Twins(x, f, Fetch(x, a).0, Fetch(x, b).0)
  {
    if a.live.Some? { StepTwins(x, f, a, b); }
  }

  lemma ReadRowTwins<D(!new)>(x: Context<D>, f: Forecast<D>, a: State<D>, b: State<D>)
    requires Twins(x, f, a, b)
    ensures ReadRow(x, a).1 == ReadRow(x, b).1 && Twins(x, f, ReadRow(x, a).0, ReadRow(x, b).0)
  {
    FlagTwins(x, f, a, b, false);
    if !a.prefetched {
      var p, q := a.(readStarted := true), b.(readStarted := true);
      FetchTwins(x, f, p, q);
      PrefetchedTwins(x, f, Fetch(x, p).0, Fetch(x, q).0);
    }
  }

  lemma PrefetchedTwins<D(!new)>(x: Context<D>, f: Forecast<D>, a: State<D>, b: State<D>)
    requires Twins(x, f, a, b)
    ensures Twins(x, f, a.(prefetched := true), b.(prefetched := true))
  {
  }

  /** The call lets go of a handle that has failed: `NextResult` after an error of the current
      statement, or a closing that meets a statement that fails. */
  predicate LetsFailedGo<D(!new)>(x: Context<D>, st: State<D>, call: Call) {
    !st.closed &&
      match call
      case CallHasRows => false
      case CallNextResult => !x.singleResult && Failed(st)
      case CallClose => Failed(Drain(x, st))
      case CallRead => x.singleRow && ReadRow(x, st).1.No? && Failed(Drain(x, AddChanges(ReadRow(x, st).0)))
  }

  predicate Unbroken<D(!new)>(x: Context<D>, st: State<D>, calls: seq<Call>)
    decreases |calls|
  {
    calls == [] || (!LetsFailedGo(x, st, calls[0]) && Unbroken(x, Do(x, st, calls[0]).0, calls[1..]))
  }

  lemma ReadTwins<D(!new)>(x: Context<D>, f: Forecast<D>, a: State<D>, b: State<D>)
    requires Twins(x, f, a, b) && Foreseen(x.engine, f) && !LetsFailedGo(x, a, CallRead)
    ensures Read(x, a).1 == Read(x, b).1 && Twins(x, f, Read(x, a).0, Read(x, b).0)
  {
    if !a.closed {
      ReadRowTwins(x, f, a, b);
      FlagTwins(x, f, ReadRow(x, a).0, ReadRow(x, b).0, false);
      var p, q := AddChanges(ReadRow(x, a).0), AddChanges(ReadRow(x, b).0);
      if ReadRow(x, a).1.No? && x.singleRow {
        ReadRowKeeps(x, f, a);
        CloseTwins(x, f, p, q);
      }
    }
  }

  lemma ReadRowKeeps<D(!new)>(x: Context<D>, f: Forecast<D>, st: State<D>)
    requires Expected(x.engine, f, st)
    ensures ReadRow(x, st).0.source == st.source && ReadRow(x, st).0.closed == st.closed
  {
    if st.live.Some? { StepExpected(x, f, st.(readStarted := true)); }
  }

  lemma DoTwins<D(!new)>(x: Context<D>, f: Forecast<D>, a: State<D>, b: State<D>, call: Call)
    requires Twins(x, f, a, b) && Foreseen(x.engine, f) && !LetsFailedGo(x, a, call)
    ensures Do(x, a, call).1 == Do(x, b, call).1 && Twins(x, f, Do(x, a, call).0, Do(x, b, call).0)
  {
    match call
    case CallHasRows => FetchTwins(x, f, a, b);
    case CallRead => ReadTwins(x, f, a, b);
    case CallNextResult => if !a.closed && !x.singleResult { AdvanceTwins(x, f, a, b); }
    case CallClose => CloseTwins(x, f, a, b);
  }

  lemma {:induction false} DriveTwins<D(!new)>(x: Context<D>, f: Forecast<D>, a: State<D>, b: State<D>, calls: seq<Call>)
    requires Twins(x, f, a, b) && Foreseen(x.engine, f) && Unbroken(x, a, calls)
    ensures Twins(x, f, Drive(x, a, calls), Drive(x, b, calls))
    decreases |calls|
  {
    if calls != [] {
      DoTwins(x, f, a, b, calls[0]);
      DriveTwins(x, f, Do(x, a, calls[0]).0, Do(x, b, calls[0]).0, calls[1..]);
    }
  }

  // ---- exactly ----

  /** The same answer, and the same reader but for where its statements come from. */
  ghost predicate Agree<D(!new)>(p: (State<D>, Answer), q: (State<D>, Answer)) {
    p.1 == q.1 && q.0 == p.0.(source := q.0.source)
  }

  /** They agree on every one of the calls. */
  ghost predicate AgreeThroughout<D(!new)>(x: Context<D>, a: State<D>, b: State<D>, calls: seq<Call>)
    decreases |calls|
  {
    calls == [] ||
      (Agree(Do(x, a, calls[0]), Do(x, b, calls[0]))
       && AgreeThroughout(x, Do(x, a, calls[0]).0, Do(x, b, calls[0]).0, calls[1..]))
  }

  /** Over a text `NextResultCore` throws with the statement let go, or at one that has just failed. */
  lemma {:induction false} ThrownOverText<D(!new)>(x: Context<D>, st: State<D>)
    requires st.source.Parse? && Advance(x, st).1.Thrown?
    ensures Advance(x, st).0.live.None? || Failed(Advance(x, st).0)
    decreases Left(st.source)
  {
    AdvanceTurn(x, st);
    match PrepareAndBind(x.engine, x.command, st.source, st.db, true)
    case Ready(s, slots, src) =>
      if s.columns == 0 && !x.engine.execute(s, slots, st.db).error {
        ThrownOverText(x, RunToEnd(x, Take(Detached(AddChanges(st)), s, slots, src)).0);
      }
    case _ =>
  }

  lemma FailedNextDiffers<D(!new)>(x: Context<D>, f: Forecast<D>, a: State<D>, b: State<D>)
    requires Twins(x, f, a, b) && Failed(a)
    ensures !Agree(Advance(x, a), Advance(x, b))
  {
    assert ReleaseThrows(b) && Advance(x, b).1.Thrown?;
    if Advance(x, a).1.Thrown? { ThrownOverText(x, a); }
  }

  lemma FailedReadDiffers<D(!new)>(x: Context<D>, f: Forecast<D>, a: State<D>, b: State<D>)
    requires Twins(x, f, a, b) && Foreseen(x.engine, f) && LetsFailedGo(x, a, CallRead)
    ensures Read(x, a).1 != Read(x, b).1
  {
    ReadRowTwins(x, f, a, b);
    ReadRowKeeps(x, f, a);
    FlagTwins(x, f, ReadRow(x, a).0, ReadRow(x, b).0, false);
    CloseTwins(x, f, AddChanges(ReadRow(x, a).0), AddChanges(ReadRow(x, b).0));
  }

  /** Two readers that have got equally far agree on a call if and only if it lets no failed handle go. */
  lemma ExactlyLetsGo<D(!new)>(x: Context<D>, f: Forecast<D>, a: State<D>, b: State<D>, call: Call)
    requires Twins(x, f, a, b) && Foreseen(x.engine, f)
    ensures Agree(Do(x, a, call), Do(x, b, call)) <==> !LetsFailedGo(x, a, call)
  {
    if !LetsFailedGo(x, a, call) {
      DoTwins(x, f, a, b, call);
    } else {
      match call
      case CallRead => FailedReadDiffers(x, f, a, b);
      case CallNextResult => FailedNextDiffers(x, f, a, b);
      case CallClose => CloseTwins(x, f, a, b);
      case CallHasRows =>
    }
  }

  lemma {:induction false} ExactlyUnbroken<D(!new)>(x: Context<D>, f: Forecast<D>, a: State<D>, b: State<D>, calls: seq<Call>)
    requires Twins(x, f, a, b) && Foreseen(x.engine, f)
    ensures AgreeThroughout(x, a, b, calls) <==> Unbroken(x, a, calls)
    decreases |calls|
  {
    if calls != [] {
      ExactlyLetsGo(x, f, a, b, calls[0]);
      if !LetsFailedGo(x, a, calls[0]) {
        DoTwins(x, f, a, b, calls[0]);
        ExactlyUnbroken(x, f, Do(x, a, calls[0]).0, Do(x, b, calls[0]).0, calls[1..]);
      }
    }
  }

  // ---- the same answers ----

  /** Cached equals fresh.  A text that can be prepared ahead is read once from its statements,
      prepared in one database, and once by parsing it, in a database that may be another one.  As
      long as no handle that has failed is let go of: the two give the same answers to the same
      calls, show the same rows, and leave the same database, the same writes with the same values
      bound, and the same counts. */
  lemma CachedEqualsFresh<D(!new)>(x: Context<D>, f: Forecast<D>, prepared: D, all: seq<Statement>, d: D, n: nat,
      calls: seq<Call>, call: Call)
    requires Foreseen(x.engine, f) && f.arises(0, prepared) && f.arises(0, d)
    requires Split(x.engine, f.text, 0, prepared) == Some(all)
    requires !Create(x, Parse(f.text, 0), d, n).1.Thrown?
    requires Unbroken(x, Create(x, Parse(f.text, 0), d, n).0, calls)
    requires !LetsFailedGo(x, Drive(x, Create(x, Parse(f.text, 0), d, n).0, calls), call)
    ensures
      var a := Drive(x, Create(x, Parse(f.text, 0), d, n).0, calls);
      var b := Drive(x, Create(x, Cached(all, 0), d, n).0, calls);
      b == a.(source := b.source) && Do(x, a, call).1 == Do(x, b, call).1 && CurrentRow(a) == CurrentRow(b)
  {
    var a, b := Create(x, Parse(f.text, 0), d, n).0, Create(x, Cached(all, 0), d, n).0;
    CreateTwins(x, f, prepared, all, d, n);
    DriveTwins(x, f, a, b, calls);
    DoTwins(x, f, Drive(x, a, calls), Drive(x, b, calls), call);
  }

  /** The text and its prepared statements tell apart no caller but one who lets go of a failed handle:
      the two readers agree on every call of a sequence if and only if none of the calls does. */
  lemma CachedDiffersExactly<D(!new)>(x: Context<D>, f: Forecast<D>, prepared: D, all: seq<Statement>, d: D, n: nat,
      calls: seq<Call>)
    requires Foreseen(x.engine, f) && f.arises(0, prepared) && f.arises(0, d)
    requires Split(x.engine, f.text, 0, prepared) == Some(all)
    requires !Create(x, Parse(f.text, 0), d, n).1.Thrown?
    ensures
      var a, b := Create(x, Parse(f.text, 0), d, n).0, Create(x, Cached(all, 0), d, n).0;
      AgreeThroughout(x, a, b, calls) <==> Unbroken(x, a, calls)
  {
    CreateTwins(x, f, prepared, all, d, n);
    ExactlyUnbroken(x, f, Create(x, Parse(f.text, 0), d, n).0, Create(x, Cached(all, 0), d, n).0, calls);
  }

  lemma CreateTwins<D(!new)>(x: Context<D>, f: Forecast<D>, prepared: D, all: seq<Statement>, d: D, n: nat)
    requires Foreseen(x.engine, f) && f.arises(0, prepared) && f.arises(0, d)
    requires Split(x.engine, f.text, 0, prepared) == Some(all)
    requires !Create(x, Parse(f.text, 0), d, n).1.Thrown?
    ensures Twins(x, f, Create(x, Parse(f.text, 0), d, n).0, Create(x, Cached(all, 0), d, n).0)
  {
    AlignedAtStart(x.engine, f, prepared, all);
    AdvanceTwins(x, f, Fields(Parse(f.text, 0), d, n), Fields(Cached(all, 0), d, n));
  }

  lemma AlignedAtStart<D(!new)>(e: Engine<D>, f: Forecast<D>, prepared: D, all: seq<Statement>)
    requires Foreseen(e, f) && f.arises(0, prepared) && Split(e, f.text, 0, prepared) == Some(all)
    ensures Aligned(e, f, Parse(f.text, 0), Cached(all, 0))
  {
    assert all == all[0..];
    forall d | f.arises(0, d) ensures Split(e, f.text, 0, d) == Some(all) { SplitForeseen(e, f, 0, d, prepared); }
  }

  /** No call throws, and no closing meets a statement that fails. */
  predicate ErrorFree<D(!new)>(x: Context<D>, st: State<D>, calls: seq<Call>)
    decreases |calls|
  {
    calls == [] ||
      (!Do(x, st, calls[0]).1.Thrown? && (calls[0].CallNextResult? || !LetsFailedGo(x, st, calls[0]))
       && ErrorFree(x, Do(x, st, calls[0]).0, calls[1..]))
  }

  /** Where nothing throws no handle has failed. */
  lemma ThrowsIfFailed<D(!new)>(x: Context<D>, st: State<D>, call: Call)
    requires !Failed(st) && !Do(x, st, call).1.Thrown?
    ensures var next := Do(x, st, call).0; next.closed || !Failed(next)
  {
    if call.CallNextResult? && !x.singleResult && !st.closed { AdvanceUnfailed(x, st); }
  }

  lemma {:induction false} AdvanceUnfailed<D(!new)>(x: Context<D>, st: State<D>)
    requires !Advance(x, st).1.Thrown?
    ensures !Failed(Advance(x, st).0)
    decreases Left(st.source)
  {
    if !ReleaseThrows(st) {
      AdvanceTurn(x, st);
      match PrepareAndBind(x.engine, x.command, st.source, st.db, true)
      case Ready(s, slots, src) =>
        if s.columns == 0 && !x.engine.execute(s, slots, st.db).error {
          AdvanceUnfailed(x, RunToEnd(x, Take(Detached(AddChanges(st)), s, slots, src)).0);
        }
      case _ =>
    }
  }

  /** Every run without errors is one in which no failed handle is let go of. */
  lemma {:induction false} ErrorFreeIsUnbroken<D(!new)>(x: Context<D>, st: State<D>, calls: seq<Call>)
    requires (st.closed || !Failed(st)) && ErrorFree(x, st, calls)
    ensures Unbroken(x, st, calls)
    decreases |calls|
  {
    if calls != [] {
      if !st.closed { ThrowsIfFailed(x, st, calls[0]); }
      ErrorFreeIsUnbroken(x, Do(x, st, calls[0]).0, calls[1..]);
    }
  }

  // ---- a run ----

  /** Any text is one query, which fails. */
  function Refusing(): (e: RawEngine<int>)
    ensures EngineOk(e)
  {
    RawEngine(
      (text: Sql, offset: nat, _) =>
        if offset >= |text| then Native(true, None, None) else Native(true, Some(FAILING), Some(|text|)),
      (s: Statement, _, d: int) => Execution([], s.columns > 0, d, None))
  }

  const ANYTHING: Forecast<int> := Forecast([0], (o: nat, d: int) => true)

  /** A query that fails, closed before it has been stepped: closing throws if it has been prepared, and
      not if it has been parsed. */
  lemma PreparedCloseThrows()
    ensures
      var x, text := Context(Refusing(), NO_PARAMETERS, false, false), ANYTHING.text;
      var (a, p) := Create(x, Parse(text, 0), 0, 0);
      var (b, q) := Create(x, Cached([FAILING], 0), 0, 0);
      && Foreseen(x.engine, ANYTHING) && Split(x.engine, text, 0, 0) == Some([FAILING])
      && p.Yes? && q.Yes? && Close(x, a).1.No? && Close(x, b).1.Thrown? && !Agree(Close(x, a), Close(x, b))
  {
    var x := Context(Refusing(), NO_PARAMETERS, false, false);
    var text := ANYTHING.text;
    assert Bind([], [], true) == Ok([]);
    RefusingSplits();
    var a, b := Create(x, Parse(text, 0), 0, 0).0, Create(x, Cached([FAILING], 0), 0, 0).0;
    assert a == Fields(Parse(text, 1), 0, 0).(live := Some(Live(FAILING, [], Fresh)));
    assert b == a.(source := Cached([FAILING], 1));
    RefusedCloses(x, a);
    RefusedCloses(x, b);
  }

  lemma RefusingSplits()
    ensures Foreseen(Refusing(), ANYTHING) && Split(Refusing(), ANYTHING.text, 0, 0) == Some([FAILING])
  {
    assert Split(Refusing(), ANYTHING.text, 1, 0) == Some([]);
    assert Prepare(Refusing(), ANYTHING.text, 0, 0) == Found(FAILING, 1);
    assert [FAILING] + [] == [FAILING];
    forall o: nat, d: int ensures Leads(Refusing(), ANYTHING, o, d) {
      match Prepare(Refusing(), ANYTHING.text, o, d)
      case Found(s, next) => assert Absorbs(Refusing(), s, ANYTHING, next);
      case _ =>
    }
  }

  lemma RefusedCloses(x: Context<int>, st: State<int>)
    requires x.engine == Refusing() && !st.closed && st.live == Some(Live(FAILING, [], Fresh))
    ensures Close(x, st).1 == if st.source.Cached? then Thrown else No
  {
    assert RunToEnd(x, st) == (WithCursor(st, Broken), Thrown);
  }
}
