/** The deferred reader of a batch as functions on its whole state. */
module ReaderModel {
  import opened Options
  import opened Binding
  import opened Engine

  /** A statement handle: not stepped yet, delivering the rows of an execution of which `pos` have
      been delivered, stepped to the end, or stepped to an error.  The next step of a handle that
      is done or broken starts it again. */
  datatype Cursor<D> = Fresh | Rows(run: Execution<D>, pos: nat) | Done | Broken

  datatype Live<D> = Live(statement: Statement, slots: Slots, cursor: Cursor<D>)

  /** The fields of the reader, its batch state, and what it shares with the connection: the
      database and the connection's change counter.  `log` is history: the writes that took
      effect while this reader ran. */
  datatype State<D> = State(
    live: Option<Live<D>>,
    hasRow: bool,
    prefetched: bool,
    readStarted: bool,
    closed: bool,
    recordsAffected: int,
    source: Source,
    db: D,
    changes: nat,
    log: seq<Write>)

  /** What stays fixed while a reader lives: the engine, the command, and the behaviour flags. */
  datatype Context<!D(!new)> = Context(engine: Engine<D>, command: Command, singleResult: bool, singleRow: bool)

  datatype Answer = Yes | No | Thrown

  function Answered(b: bool): Answer { if b then Yes else No }

  // ---- one step ----

  /** What a step from the start of a statement executes. */
  function Executed<D(!new)>(x: Context<D>, st: State<D>): Execution<D>
    requires st.live.Some?
  {
    x.engine.execute(st.live.value.statement, st.live.value.slots, st.db)
  }

  function WithCursor<D(!new)>(st: State<D>, c: Cursor<D>): State<D>
    requires st.live.Some?
  {
    st.(live := Some(st.live.value.(cursor := c)))
  }

  /** The step that starts an execution: its effect happens now. */
  function Start<D(!new)>(x: Context<D>, st: State<D>): (State<D>, Answer)
    requires st.live.Some?
  {
    var l, run := st.live.value, Executed(x, st);
    if run.rows == [] && run.error then (WithCursor(st, Broken), Thrown)
    else
      var effected := st.(db := run.after, log := st.log + Logged(l.statement, l.slots, run, st.changes));
      if run.rows == [] then (WithCursor(effected.(changes := Counter(run, st.changes)), Done), No)
      else (WithCursor(effected, Rows(run, 1)), Yes)
  }

  /** `Statement.Step`: a row, the end, or an error. */
  function Step<D(!new)>(x: Context<D>, st: State<D>): (State<D>, Answer)
    requires st.live.Some?
  {
    match st.live.value.cursor
    case Rows(run, pos) =>
      if pos < |run.rows| then (WithCursor(st, Rows(run, pos + 1)), Yes)
      else if run.error then (WithCursor(st, Broken), Thrown)
      else (WithCursor(st.(changes := Counter(run, st.changes)), Done), No)
    case _ => Start(x, st)
  }

  /** How many steps it takes to see the end of the current statement. */
  function StepsLeft<D(!new)>(x: Context<D>, st: State<D>): nat
    requires st.live.Some?
  {
    match st.live.value.cursor
    case Rows(run, pos) => if pos < |run.rows| then |run.rows| - pos else 0
    case _ => |Executed(x, st).rows| + 1
  }

  /** `ExecuteCurrentStatementToEnd`. */
  function RunToEnd<D(!new)>(x: Context<D>, st: State<D>): (r: (State<D>, Answer))
    requires st.live.Some?
    ensures !r.1.Yes? && r.0.live.Some? && r.0.source == st.source
    ensures r.0.live.value == st.live.value.(cursor := r.0.live.value.cursor)
    decreases StepsLeft(x, st)
  {
    var (next, a) := Step(x, st);
    if a.Yes? then RunToEnd(x, next) else (next, a)
  }

  /** `AddChangesFromCurrentStatement`. */
  function AddChanges<D(!new)>(st: State<D>): State<D> {
    if st.live.Some? && !st.live.value.statement.readOnly && st.changes > 0 then
      st.(recordsAffected := if st.recordsAffected < 0 then st.changes else st.recordsAffected + st.changes)
    else st
  }

  // ---- moving on ----

  /** `ReleaseStatement` of a prepared command resets the handle, and the reset reports an error
      the last step already reported. */
  predicate ReleaseThrows<D(!new)>(st: State<D>) {
    st.source.Cached? && st.live.Some? && st.live.value.cursor.Broken?
  }

  /** The fields after the current statement has been let go. */
  function Detached<D(!new)>(st: State<D>): State<D> {
    st.(live := None, prefetched := false, readStarted := false, hasRow := false)
  }

  /** The next statement becomes the current one. */
  function Take<D(!new)>(st: State<D>, s: Statement, slots: Slots, src: Source): State<D> {
    st.(source := src, live := Some(Live(s, slots, Fresh)))
  }

  /** The loop of `NextResultCore`. */
  function Advance<D(!new)>(x: Context<D>, st: State<D>): (State<D>, Answer)
    decreases Left(st.source)
  {
    var counted := AddChanges(st);
    if ReleaseThrows(counted) then (WithCursor(counted, Fresh), Thrown)
    else
      var free := Detached(counted);
      match PrepareAndBind(x.engine, x.command, st.source, st.db, true)
      case Threw(src) => (free.(source := src), Thrown)
      case Finished(src) => (free.(source := src), No)
      case Ready(s, slots, src) =>
        var ready := Take(free, s, slots, src);
        if s.columns > 0 then (ready, Yes)
        else
          var (done, a) := RunToEnd(x, ready);
          if a.Thrown? then (done, Thrown) else Advance(x, done)
  }

  /** The loop of `DrainRemainingStatements`; it stops silently at an error. */
  function DrainRest<D(!new)>(x: Context<D>, st: State<D>): State<D>
    decreases Left(st.source)
  {
    match PrepareAndBind(x.engine, x.command, st.source, st.db, false)
    case Threw(src) => st.(source := src)
    case Finished(src) => st.(source := src, live := None)
    case Ready(s, slots, src) =>
      var (done, a) := RunToEnd(x, Take(st, s, slots, src));
      if a.Thrown? then done else DrainRest(x, AddChanges(done))
  }

  function Drain<D(!new)>(x: Context<D>, st: State<D>): State<D> {
    if st.live.None? then DrainRest(x, st)
    else
      var (done, a) := RunToEnd(x, st);
      if a.Thrown? then done else DrainRest(x, AddChanges(done))
  }

  // ---- the calls ----

  function Close<D(!new)>(x: Context<D>, st: State<D>): (State<D>, Answer) {
    if st.closed then (st, No)
    else
      var drained := Drain(x, st);
      if ReleaseThrows(drained) then (WithCursor(drained, Fresh).(closed := true), Thrown)
      else (drained.(closed := true, live := None), No)
  }

  function NextResult<D(!new)>(x: Context<D>, st: State<D>): (State<D>, Answer) {
    if st.closed then (st, Thrown)
    else if x.singleResult then (st, No)
    else Advance(x, st)
  }

  /** `_hasRow = _stmt is not null && step`; an error leaves `_hasRow` alone. */
  function Fetch<D(!new)>(x: Context<D>, st: State<D>): (State<D>, Answer) {
    if st.live.None? then (st.(hasRow := false), No)
    else
      var (next, a) := Step(x, st);
      if a.Thrown? then (next, Thrown) else (next.(hasRow := a.Yes?), a)
  }

  /** `Read`, up to the row it finds or not. */
  function ReadRow<D(!new)>(x: Context<D>, st: State<D>): (State<D>, Answer) {
    if st.prefetched then (st.(readStarted := true, prefetched := false), Answered(st.hasRow))
    else
      var (f, a) := Fetch(x, st.(readStarted := true));
      (if a.No? then f.(prefetched := true) else f, a)
  }

  function Read<D(!new)>(x: Context<D>, st: State<D>): (State<D>, Answer) {
    if st.closed then (st, Thrown)
    else
      var (fetched, a) := ReadRow(x, st);
      if !a.No? then (fetched, a)
      else if x.singleRow then
        var (shut, b) := Close(x, AddChanges(fetched));
        (shut, if b.Thrown? then Thrown else No)
      else (AddChanges(fetched), No)
  }

  /** `HasRows`, and every other peek at the first row before the first `Read`. */
  function HasRows<D(!new)>(x: Context<D>, st: State<D>): (State<D>, Answer) {
    if st.closed then (st, Thrown)
    else if st.prefetched || st.readStarted then (st, Answered(st.hasRow))
    else
      var (f, a) := Fetch(x, st);
      if a.Thrown? then (f, Thrown) else (f.(prefetched := true), a)
  }

  /** The row the value getters read; None where they throw. */
  function CurrentRow<D(!new)>(st: State<D>): Option<Row> {
    if st.closed || !st.readStarted || !st.hasRow || st.live.None? then None
    else
      match st.live.value.cursor
      case Rows(run, pos) => if 0 < pos <= |run.rows| then Some(run.rows[pos - 1]) else None
      case _ => None
  }

  /** A reader that has just been constructed. */
  function Fields<D(!new)>(src: Source, d: D, changes: nat): State<D> {
    State(None, false, false, false, false, -1, src, d, changes, [])
  }

  /** `SqliteDataReader.Create`: an error on the way to the first result disposes the reader. */
  function Create<D(!new)>(x: Context<D>, src: Source, d: D, changes: nat): (State<D>, Answer) {
    var (st, a) := Advance(x, Fields(src, d, changes));
    if a.Thrown? then (Close(x, st).0, Thrown) else (st, a)
  }

  // ---- sequences of calls ----

  datatype Call = CallHasRows | CallRead | CallNextResult | CallClose

  function Do<D(!new)>(x: Context<D>, st: State<D>, call: Call): (State<D>, Answer) {
    match call
    case CallHasRows => HasRows(x, st)
    case CallRead => Read(x, st)
    case CallNextResult => NextResult(x, st)
    case CallClose => Close(x, st)
  }

  function Drive<D(!new)>(x: Context<D>, st: State<D>, calls: seq<Call>): State<D>
    decreases |calls|
  {
    if calls == [] then st else Drive(x, Do(x, st, calls[0]).0, calls[1..])
  }
}
