/** What a reader does does not depend on the writes before it nor on the changes it has counted,
    and a step not on where its statements come from. */
module ReaderFrame {
  import opened Options
  import opened Binding
  import opened Engine
  import opened ReaderModel

  // ---- one turn ----

  function AfterPlain<D(!new)>(x: Context<D>, run: (State<D>, Answer)): (State<D>, Answer) {
    if run.1.Thrown? then (run.0, Thrown) else Advance(x, run.0)
  }

  function AfterDrained<D(!new)>(x: Context<D>, run: (State<D>, Answer)): State<D> {
    if run.1.Thrown? then run.0 else DrainRest(x, AddChanges(run.0))
  }

  /** A statement without columns runs to its end in one step, and takes effect there. */
  lemma PlainRuns<D(!new)>(x: Context<D>, st: State<D>, s: Statement, slots: Slots, src: Source)
    requires s.columns == 0
    ensures var run := x.engine.execute(s, slots, st.db);
      RunToEnd(x, Take(st, s, slots, src)) ==
        if run.error then (WithCursor(Take(st, s, slots, src), Broken), Thrown)
        else (WithCursor(Take(st, s, slots, src).(db := run.after, changes := Counter(run, st.changes),
                                                  log := st.log + Logged(s, slots, run, st.changes)), Done), No)
  {
  }

  /** One turn of the loop. */
  lemma AdvanceTurn<D(!new)>(x: Context<D>, st: State<D>)
    requires !ReleaseThrows(st)
    ensures
      var free := Detached(AddChanges(st));
      match PrepareAndBind(x.engine, x.command, st.source, st.db, true)
      case Threw(src) => Advance(x, st) == (free.(source := src), Thrown)
      case Finished(src) => Advance(x, st) == (free.(source := src), No)
      case Ready(s, slots, src) =>
        if s.columns > 0 then Advance(x, st) == (Take(free, s, slots, src), Yes)
        else if x.engine.execute(s, slots, st.db).error then
          Advance(x, st) == (WithCursor(Take(free, s, slots, src), Broken), Thrown)
        else Advance(x, st) == Advance(x, RunToEnd(x, Take(free, s, slots, src)).0)
  {
    var free := Detached(AddChanges(st));
    match PrepareAndBind(x.engine, x.command, st.source, st.db, true)
    case Ready(s, slots, src) => if s.columns == 0 { PlainRuns(x, free, s, slots, src); }
    case _ =>
  }

  /** The current statement is counted and let go first. */
  lemma AdvanceFree<D(!new)>(x: Context<D>, st: State<D>)
    requires !ReleaseThrows(st)
    ensures Advance(x, st) == Advance(x, Detached(AddChanges(st)))
  {
  }

  /** A failed handle of a prepared command reports its error again instead of being let go. */
  lemma ReleaseTurn<D(!new)>(x: Context<D>, st: State<D>)
    requires ReleaseThrows(st)
    ensures Advance(x, st) == (WithCursor(AddChanges(st), Fresh), Thrown)
  {
  }

  /** The next statement has no columns, and succeeds. */
  predicate Plain<D(!new)>(e: Engine<D>, n: Next, d: D) {
    n.Ready? && n.statement.columns == 0 && !e.execute(n.statement, n.slots, d).error
  }

  /** The turn of such a statement, and the reader it leaves. */
  lemma PlainTurn<D(!new)>(x: Context<D>, st: State<D>, n: Next)
    requires !ReleaseThrows(st) && n == PrepareAndBind(x.engine, x.command, st.source, st.db, true) && Plain(x.engine, n, st.db)
    ensures
      var run := x.engine.execute(n.statement, n.slots, st.db);
      var done := RunToEnd(x, Take(Detached(AddChanges(st)), n.statement, n.slots, n.src)).0;
      && Advance(x, st) == Advance(x, done) && !ReleaseThrows(done) && done.closed == st.closed
      && done.source == n.src && done.db == run.after && done.changes == Counter(run, st.changes)
      && done.log == st.log + Logged(n.statement, n.slots, run, st.changes)
  {
    AdvanceTurn(x, st);
    PlainRuns(x, Detached(AddChanges(st)), n.statement, n.slots, n.src);
  }

  /** The turn of any other. */
  lemma StopTurn<D(!new)>(x: Context<D>, st: State<D>, n: Next)
    requires !ReleaseThrows(st) && n == PrepareAndBind(x.engine, x.command, st.source, st.db, true) && !Plain(x.engine, n, st.db)
    ensures
      var free := Detached(AddChanges(st)).(source := n.src);
      Advance(x, st) ==
        if n.Finished? then (free, No)
        else if n.Threw? then (free, Thrown)
        else if n.statement.columns > 0 then (Take(free, n.statement, n.slots, n.src), Yes)
        else (WithCursor(Take(free, n.statement, n.slots, n.src), Broken), Thrown)
  {
    AdvanceTurn(x, st);
  }

  lemma {:induction false} AdvanceThrowsExactly<D(!new)>(x: Context<D>, st: State<D>)
    requires !ReleaseThrows(st)
    ensures Advance(x, st).1.Thrown? <==> FailsFirst(x.engine, x.command, st.source, st.db)
    decreases Left(st.source)
  {
    var n := PrepareAndBind(x.engine, x.command, st.source, st.db, true);
    if Plain(x.engine, n, st.db) {
      PlainTurn(x, st, n);
      AdvanceThrowsExactly(x, RunToEnd(x, Take(Detached(AddChanges(st)), n.statement, n.slots, n.src)).0);
    } else {
      StopTurn(x, st, n);
    }
  }

  /** Creating a reader throws exactly if the batch fails before its first query. */
  lemma CreateThrowsExactly<D(!new)>(x: Context<D>, src: Source, d: D, n: nat)
    ensures Create(x, src, d, n).1.Thrown? <==> FailsFirst(x.engine, x.command, src, d)
  {
    AdvanceThrowsExactly(x, Fields(src, d, n));
  }

  // ---- the log only grows ----

  lemma StepGrows<D(!new)>(x: Context<D>, st: State<D>)
    requires st.live.Some?
    ensures st.log <= Step(x, st).0.log
  {
  }

  lemma {:induction false} RunGrows<D(!new)>(x: Context<D>, st: State<D>)
    requires st.live.Some?
    ensures st.log <= RunToEnd(x, st).0.log
    decreases StepsLeft(x, st)
  {
    StepGrows(x, st);
    var (next, a) := Step(x, st);
    if a.Yes? { RunGrows(x, next); }
  }

  lemma {:induction false} DrainGrows<D(!new)>(x: Context<D>, st: State<D>)
    ensures st.log <= DrainRest(x, st).log
    decreases Left(st.source)
  {
    match PrepareAndBind(x.engine, x.command, st.source, st.db, false)
    case Ready(s, slots, src) =>
      var (done, a) := RunToEnd(x, Take(st, s, slots, src));
      RunGrows(x, Take(st, s, slots, src));
      if !a.Thrown? { DrainGrows(x, AddChanges(done)); }
    case _ =>
  }

  lemma CloseGrows<D(!new)>(x: Context<D>, st: State<D>)
    ensures st.log <= Close(x, st).0.log
  {
    if !st.closed {
      if st.live.Some? {
        RunGrows(x, st);
        DrainGrows(x, AddChanges(RunToEnd(x, st).0));
      } else {
        DrainGrows(x, st);
      }
    }
  }

  lemma {:induction false} AdvanceGrows<D(!new)>(x: Context<D>, st: State<D>)
    ensures st.log <= Advance(x, st).0.log
    decreases Left(st.source)
  {
    if ReleaseThrows(st) {
      ReleaseTurn(x, st);
    } else {
      var n := PrepareAndBind(x.engine, x.command, st.source, st.db, true);
      if Plain(x.engine, n, st.db) {
        PlainTurn(x, st, n);
        AdvanceGrows(x, RunToEnd(x, Take(Detached(AddChanges(st)), n.statement, n.slots, n.src)).0);
      } else {
        StopTurn(x, st, n);
      }
    }
  }

  // ---- what does not matter ----

  /** `b` is `a` with the writes `before` in front of its log, and possibly another source and count. */
  ghost predicate Alike<D(!new)>(before: seq<Write>, a: State<D>, b: State<D>) {
    b == a.(source := b.source, log := before + a.log, recordsAffected := b.recordsAffected)
  }

  /** Alike, with the source and the count as they were. */
  ghost predicate Moved<D(!new)>(before: seq<Write>, a: State<D>, b: State<D>, p: (State<D>, Answer), q: (State<D>, Answer)) {
    && p.1 == q.1 && Alike(before, p.0, q.0)
    && p.0.source == a.source && q.0.source == b.source
    && p.0.recordsAffected == a.recordsAffected && q.0.recordsAffected == b.recordsAffected
    && p.0.live.Some? == a.live.Some?
  }

  /** The start of a statement, split into what is executed and where the handle is then. */
  function Effected<D(!new)>(st: State<D>, run: Execution<D>): State<D>
    requires st.live.Some?
  {
    st.(db := run.after, log := st.log + Logged(st.live.value.statement, st.live.value.slots, run, st.changes))
  }

  lemma EffectAlike<D(!new)>(before: seq<Write>, a: State<D>, b: State<D>, run: Execution<D>)
    requires Alike(before, a, b) && a.live.Some?
    ensures Alike(before, Effected(a, run), Effected(b, run))
  {
    var log := Logged(a.live.value.statement, a.live.value.slots, run, a.changes);
    assert before + (a.log + log) == before + a.log + log;
  }

  lemma CursorAlike<D(!new)>(before: seq<Write>, a: State<D>, b: State<D>, changes: nat, c: Cursor<D>)
    requires Alike(before, a, b) && a.live.Some?
    ensures Alike(before, WithCursor(a.(changes := changes), c), WithCursor(b.(changes := changes), c))
  {
  }

  lemma StartAlike<D(!new)>(x: Context<D>, before: seq<Write>, a: State<D>, b: State<D>)
    requires Alike(before, a, b) && a.live.Some?
    ensures Moved(before, a, b, Start(x, a), Start(x, b))
  {
    var run := Executed(x, a);
    if run.rows == [] && run.error {
      CursorAlike(before, a, b, a.changes, Broken);
    } else {
      var c := if run.rows == [] then Done else Rows(run, 1);
      EffectAlike(before, a, b, run);
      CursorAlike(before, Effected(a, run), Effected(b, run), if run.rows == [] then Counter(run, a.changes) else a.changes, c);
    }
  }

  lemma StepAlike<D(!new)>(x: Context<D>, before: seq<Write>, a: State<D>, b: State<D>)
    requires Alike(before, a, b) && a.live.Some?
    ensures Moved(before, a, b, Step(x, a), Step(x, b))
  {
    if !a.live.value.cursor.Rows? { StartAlike(x, before, a, b); }
  }

  lemma {:induction false} RunAlike<D(!new)>(x: Context<D>, before: seq<Write>, a: State<D>, b: State<D>)
    requires Alike(before, a, b) && a.live.Some?
    ensures Moved(before, a, b, RunToEnd(x, a), RunToEnd(x, b))
    decreases StepsLeft(x, a)
  {
    StepAlike(x, before, a, b);
    var (next, answer) := Step(x, a);
    if answer.Yes? { RunAlike(x, before, next, Step(x, b).0); }
  }

  // ---- what the caller has looked at ----

  function Looked<D(!new)>(st: State<D>, hasRow: bool, prefetched: bool, readStarted: bool): State<D> {
    st.(hasRow := hasRow, prefetched := prefetched, readStarted := readStarted)
  }

  lemma CursorLooked<D(!new)>(st: State<D>, changes: nat, c: Cursor<D>, h: bool, p: bool, r: bool)
    requires st.live.Some?
    ensures WithCursor(Looked(st, h, p, r).(changes := changes), c) == Looked(WithCursor(st.(changes := changes), c), h, p, r)
  {
  }

  lemma StartParts<D(!new)>(x: Context<D>, st: State<D>)
    requires st.live.Some?
    ensures
      var run := Executed(x, st);
      Start(x, st) ==
        if run.rows == [] && run.error then (WithCursor(st, Broken), Thrown)
        else if run.rows == [] then (WithCursor(Effected(st, run).(changes := Counter(run, st.changes)), Done), No)
        else (WithCursor(Effected(st, run), Rows(run, 1)), Yes)
  {
  }

  lemma StartLooked<D(!new)>(x: Context<D>, st: State<D>, h: bool, p: bool, r: bool)
    requires st.live.Some?
    ensures Start(x, Looked(st, h, p, r)) == (Looked(Start(x, st).0, h, p, r), Start(x, st).1)
  {
    var run := Executed(x, st);
    StartParts(x, st);
    StartParts(x, Looked(st, h, p, r));
    assert Effected(Looked(st, h, p, r), run) == Looked(Effected(st, run), h, p, r);
    if run.rows == [] && run.error {
      CursorLooked(st, st.changes, Broken, h, p, r);
    } else if run.rows == [] {
      CursorLooked(Effected(st, run), Counter(run, st.changes), Done, h, p, r);
    } else {
      CursorLooked(Effected(st, run), st.changes, Rows(run, 1), h, p, r);
    }
  }

  lemma StepLooked<D(!new)>(x: Context<D>, st: State<D>, h: bool, p: bool, r: bool)
    requires st.live.Some?
    ensures Step(x, Looked(st, h, p, r)) == (Looked(Step(x, st).0, h, p, r), Step(x, st).1)
  {
    var c := st.live.value.cursor;
    if !c.Rows? {
      StartLooked(x, st, h, p, r);
    } else if c.pos < |c.run.rows| {
      CursorLooked(st, st.changes, Rows(c.run, c.pos + 1), h, p, r);
    } else if c.run.error {
      CursorLooked(st, st.changes, Broken, h, p, r);
    } else {
      CursorLooked(st, Counter(c.run, st.changes), Done, h, p, r);
    }
  }

  lemma {:induction false} RunLooked<D(!new)>(x: Context<D>, st: State<D>, h: bool, p: bool, r: bool)
    requires st.live.Some?
    ensures RunToEnd(x, Looked(st, h, p, r)) == (Looked(RunToEnd(x, st).0, h, p, r), RunToEnd(x, st).1)
    decreases StepsLeft(x, st)
  {
    StepLooked(x, st, h, p, r);
    var (next, a) := Step(x, st);
    if a.Yes? { RunLooked(x, next, h, p, r); }
  }

  lemma TakeLooked<D(!new)>(st: State<D>, n: Next, h: bool, p: bool, r: bool)
    requires n.Ready?
    ensures Take(Looked(st, h, p, r), n.statement, n.slots, n.src) == Looked(Take(st, n.statement, n.slots, n.src), h, p, r)
  {
  }

  lemma CountLooked<D(!new)>(st: State<D>, h: bool, p: bool, r: bool)
    ensures AddChanges(Looked(st, h, p, r)) == Looked(AddChanges(st), h, p, r)
  {
  }

  /** Draining does not look at what the caller has seen. */
  lemma {:induction false} DrainLooked<D(!new)>(x: Context<D>, st: State<D>, h: bool, p: bool, r: bool)
    ensures DrainRest(x, Looked(st, h, p, r)) == Looked(DrainRest(x, st), h, p, r)
    decreases Left(st.source)
  {
    var n := PrepareAndBind(x.engine, x.command, st.source, st.db, false);
    if n.Ready? {
      var next := Take(st, n.statement, n.slots, n.src);
      RunLooked(x, next, h, p, r);
      TakeLooked(st, n, h, p, r);
      var (done, a) := RunToEnd(x, next);
      if !a.Thrown? {
        CountLooked(done, h, p, r);
        DrainLooked(x, AddChanges(done), h, p, r);
      }
    }
  }

  // ---- over the same source ----

  /** Alike over the same source; with the same count, if it was the same before. */
  ghost predicate Shifted<D(!new)>(before: seq<Write>, same: bool, a: State<D>, b: State<D>) {
    Alike(before, a, b) && b.source == a.source && (same ==> b.recordsAffected == a.recordsAffected)
  }

  lemma RunShifts<D(!new)>(x: Context<D>, before: seq<Write>, same: bool, a: State<D>, b: State<D>)
    requires Shifted(before, same, a, b) && a.live.Some?
    ensures RunToEnd(x, a).1 == RunToEnd(x, b).1 && Shifted(before, same, RunToEnd(x, a).0, RunToEnd(x, b).0)
    ensures Shifted(before, same, AddChanges(RunToEnd(x, a).0), AddChanges(RunToEnd(x, b).0))
  {
    RunAlike(x, before, a, b);
  }

  lemma {:induction false} DrainShifts<D(!new)>(x: Context<D>, before: seq<Write>, same: bool, a: State<D>, b: State<D>)
    requires Shifted(before, same, a, b)
    ensures Shifted(before, same, DrainRest(x, a), DrainRest(x, b))
    decreases Left(a.source)
  {
    match PrepareAndBind(x.engine, x.command, a.source, a.db, false)
    case Ready(s, slots, src) =>
      var p, q := Take(a, s, slots, src), Take(b, s, slots, src);
      RunShifts(x, before, same, p, q);
      if !RunToEnd(x, p).1.Thrown? {
        DrainShifts(x, before, same, AddChanges(RunToEnd(x, p).0), AddChanges(RunToEnd(x, q).0));
      }
    case _ =>
  }

  lemma DrainAllShifts<D(!new)>(x: Context<D>, before: seq<Write>, same: bool, a: State<D>, b: State<D>)
    requires Shifted(before, same, a, b)
    ensures Shifted(before, same, Drain(x, a), Drain(x, b))
  {
    if a.live.None? {
      DrainShifts(x, before, same, a, b);
    } else {
      RunShifts(x, before, same, a, b);
      DrainShifts(x, before, same, AddChanges(RunToEnd(x, a).0), AddChanges(RunToEnd(x, b).0));
    }
  }

  lemma ShutShifts<D(!new)>(before: seq<Write>, same: bool, a: State<D>, b: State<D>)
    requires Shifted(before, same, a, b)
    ensures Shifted(before, same, a.(closed := true, live := None), b.(closed := true, live := None))
    ensures a.live.Some? ==> Shifted(before, same, WithCursor(a, Fresh).(closed := true), WithCursor(b, Fresh).(closed := true))
  {
  }

  lemma CloseShifts<D(!new)>(x: Context<D>, before: seq<Write>, same: bool, a: State<D>, b: State<D>)
    requires Shifted(before, same, a, b)
    ensures Close(x, a).1 == Close(x, b).1 && Shifted(before, same, Close(x, a).0, Close(x, b).0)
  {
    if !a.closed {
      DrainAllShifts(x, before, same, a, b);
      ShutShifts(before, same, Drain(x, a), Drain(x, b));
    }
  }

  ghost predicate AdvanceShifted<D(!new)>(x: Context<D>, before: seq<Write>, same: bool, a: State<D>, b: State<D>) {
    Advance(x, a).1 == Advance(x, b).1 && Shifted(before, same, Advance(x, a).0, Advance(x, b).0)
  }

  lemma FreeShifts<D(!new)>(before: seq<Write>, same: bool, a: State<D>, b: State<D>, src: Source)
    requires Shifted(before, same, a, b)
    ensures Shifted(before, same, AddChanges(a), AddChanges(b))
    ensures Shifted(before, same, Detached(AddChanges(a)).(source := src), Detached(AddChanges(b)).(source := src))
  {
  }

  lemma TakenShifts<D(!new)>(before: seq<Write>, same: bool, a: State<D>, b: State<D>, s: Statement, slots: Slots, src: Source)
    requires Shifted(before, same, a, b)
    ensures Shifted(before, same, Take(a, s, slots, src), Take(b, s, slots, src))
    ensures Shifted(before, same, WithCursor(Take(a, s, slots, src), Broken), WithCursor(Take(b, s, slots, src), Broken))
  {
  }

  lemma StopShifts<D(!new)>(x: Context<D>, before: seq<Write>, same: bool, a: State<D>, b: State<D>, n: Next)
    requires Shifted(before, same, a, b) && !ReleaseThrows(a)
    requires n == PrepareAndBind(x.engine, x.command, a.source, a.db, true) && !Plain(x.engine, n, a.db)
    ensures AdvanceShifted(x, before, same, a, b)
  {
    StopTurn(x, a, n);
    StopTurn(x, b, n);
    FreeShifts(before, same, a, b, n.src);
    if n.Ready? {
      var p, q := Detached(AddChanges(a)).(source := n.src), Detached(AddChanges(b)).(source := n.src);
      TakenShifts(before, same, p, q, n.statement, n.slots, n.src);
    }
  }

  lemma {:induction false} PlainShifts<D(!new)>(x: Context<D>, before: seq<Write>, same: bool, a: State<D>, b: State<D>, n: Next)
    requires Shifted(before, same, a, b) && !ReleaseThrows(a)
    requires n == PrepareAndBind(x.engine, x.command, a.source, a.db, true) && Plain(x.engine, n, a.db)
    ensures AdvanceShifted(x, before, same, a, b)
    decreases Left(a.source), 0
  {
    PlainTurn(x, a, n);
    PlainTurn(x, b, n);
    var p := Take(Detached(AddChanges(a)), n.statement, n.slots, n.src);
    var q := Take(Detached(AddChanges(b)), n.statement, n.slots, n.src);
    RunShifts(x, before, same, p, q);
    AdvanceShifts(x, before, same, RunToEnd(x, p).0, RunToEnd(x, q).0);
  }

  lemma ReleaseShifts<D(!new)>(x: Context<D>, before: seq<Write>, same: bool, a: State<D>, b: State<D>)
    requires Shifted(before, same, a, b) && ReleaseThrows(a)
    ensures AdvanceShifted(x, before, same, a, b)
  {
    ReleaseTurn(x, a);
    ReleaseTurn(x, b);
    FreeShifts(before, same, a, b, a.source);
  }

  lemma {:induction false} AdvanceShifts<D(!new)>(x: Context<D>, before: seq<Write>, same: bool, a: State<D>, b: State<D>)
    requires Shifted(before, same, a, b)
    ensures AdvanceShifted(x, before, same, a, b)
    decreases Left(a.source)
  {
    if ReleaseThrows(a) {
      ReleaseShifts(x, before, same, a, b);
    } else {
      var n := PrepareAndBind(x.engine, x.command, a.source, a.db, true);
      if Plain(x.engine, n, a.db) { PlainShifts(x, before, same, a, b, n); } else { StopShifts(x, before, same, a, b, n); }
    }
  }
}
