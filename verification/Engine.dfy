/** The database engine as the provider sees it: compiling the next statement of a SQL text,
    stepping a statement, and the eager meaning of a whole batch. */
module Engine {
  import opened Options
  import opened Binding

  /** A SQL text in UTF-8, without its terminator. */
  type Sql = seq<bv8>

  type Row = seq<Value>

  datatype Statement = Statement(sql: Sql, columns: nat, readOnly: bool, parameters: seq<string>)

  /** What `sqlite3_prepare_v3` answers: result code OK or not, a statement or none, and the tail
      pointer as an offset into the text, or null. */
  datatype Native = Native(ok: bool, statement: Option<Statement>, tail: Option<nat>)

  /** One execution of a statement: the rows it yields, whether an error follows them, the
      database afterwards, and the change count if it is an INSERT, UPDATE or DELETE. */
  datatype Execution<D> = Execution(rows: seq<Row>, error: bool, after: D, changes: Option<nat>)

  datatype RawEngine<!D> = RawEngine(
    prepare: (Sql, nat, D) -> Native,
    execute: (Statement, Slots, D) -> Execution<D>)

  /** What is taken for granted of SQLite: a statement takes at least one byte of the text and none
      behind its end; where nothing is left, nothing is left from there on; a read-only statement
      has no change count, and if it returns rows, leaves the database as it was (ROLLBACK is
      read-only, and does not); so does a statement that fails at once; a statement without columns
      has no rows. */
  ghost predicate EngineOk<D(!new)>(e: RawEngine<D>) {
    && (forall text: Sql, offset: nat, d: D ::
          var n := e.prepare(text, offset, d);
          && (n.tail.Some? ==> offset <= n.tail.value <= |text|)
          && (n.statement.Some? ==> n.tail.Some? && offset < n.tail.value)
          && (offset >= |text| ==> n.ok && n.statement.None?)
          && (n.ok && n.statement.None? && n.tail.Some? ==>
                forall d': D :: e.prepare(text, n.tail.value, d').ok && e.prepare(text, n.tail.value, d').statement.None?))
    && (forall s: Statement, b: Slots, d: D ::
          var x := e.execute(s, b, d);
          && (s.readOnly ==> x.changes.None?)
          && (s.readOnly && s.columns > 0 ==> x.after == d)
          && (x.error && x.rows == [] ==> x.after == d)
          && (s.columns == 0 ==> x.rows == []))
  }

  type Engine<!D(!new)> = e: RawEngine<D> | EngineOk(e)
    ghost witness RawEngine((_, _, _) => Native(true, None, None), (_, _, d) => Execution([], false, d, None))

  // ---- Connection.Prepare at a byte offset ----

  datatype Prepared =
    | OutOfRange
    | Failed
    | Nothing(next: nat)
    | Found(statement: Statement, next: nat)

  /** `Connection.Prepare`: the text is handed over with its terminator. */
  function Prepare<D(!new)>(e: Engine<D>, text: Sql, offset: nat, d: D): (r: Prepared)
    ensures r.Found? ==> offset < r.next <= |text|
    ensures r.Nothing? ==> offset <= r.next <= |text| + 1
  {
    var dataLength := |text| + 1;
    if offset > dataLength then OutOfRange
    else
      var n := e.prepare(text, offset, d);
      var remaining := dataLength - offset;
      var consumed := if n.tail.None? then remaining else n.tail.value - offset;
      if !n.ok then Failed
      else if n.statement.None? then Nothing(offset + consumed)
      else Found(n.statement.value, offset + consumed)
  }

  // ---- where the statements of a batch come from ----

  /** A batch being read: by byte offset from the text, or by index from the prepared statements. */
  datatype Source = Parse(text: Sql, offset: nat) | Cached(statements: seq<Statement>, index: nat)

  function Left(src: Source): nat {
    match src
    case Parse(text, offset) => if offset <= |text| + 1 then |text| + 1 - offset else 0
    case Cached(statements, index) => if index <= |statements| then |statements| - index else 0
  }

  /** The next statement, bound, or the end, or an error; and the batch state afterwards. */
  datatype Next =
    | Ready(statement: Statement, slots: Slots, src: Source)
    | Finished(src: Source)
    | Threw(src: Source)

  /** The parameters of a command, and whether its text is an EXPLAIN. */
  datatype Command = Command(parameters: seq<Parameter>, explain: bool)

  /** `PrepareAndBindNext`.  A statement whose parameters cannot be bound has been passed already. */
  function PrepareAndBind<D(!new)>(e: Engine<D>, c: Command, src: Source, d: D, strict: bool): (n: Next)
    ensures n.Ready? ==> Left(n.src) < Left(src)
    ensures Left(n.src) <= Left(src)
  {
    match src
    case Parse(text, offset) =>
      (match Prepare(e, text, offset, d)
       case OutOfRange | Failed => Threw(src)
       case Nothing(next) => Finished(Parse(text, next))
       case Found(s, next) => BindTo(c, s, Parse(text, next), strict))
    case Cached(statements, index) =>
      if index >= |statements| then Finished(src)
      else BindTo(c, statements[index], Cached(statements, index + 1), strict)
  }

  function BindTo(c: Command, s: Statement, src: Source, strict: bool): (n: Next)
    ensures n.src == src && !n.Finished?
  {
    match Bind(s.parameters, c.parameters, strict && !c.explain)
    case Ok(slots) => Ready(s, slots, src)
    case Err(_) => Threw(src)
  }

  // ---- the eager meaning of a batch ----

  /** A write that was executed: the statement, the values bound to it, its own change count if it
      is an INSERT, UPDATE or DELETE, and what the connection's change counter reads after it. */
  datatype Write = Write(statement: Statement, slots: Slots, own: Option<nat>, reading: nat)

  /** The change counter after an execution: only INSERT, UPDATE and DELETE set it. */
  function Counter<D>(run: Execution<D>, before: nat): nat {
    if run.changes.Some? then run.changes.value else before
  }

  function Logged<D>(s: Statement, slots: Slots, run: Execution<D>, before: nat): seq<Write> {
    if s.readOnly then [] else [Write(s, slots, run.changes, Counter(run, before))]
  }

  /** What executing a batch leaves behind: the database, the writes, the result sets, and whether
      the end was reached without an error. */
  datatype Outcome<D> = Outcome(db: D, log: seq<Write>, results: seq<seq<Row>>, ok: bool)

  function ResultSets<D>(s: Statement, run: Execution<D>): seq<seq<Row>> {
    if s.columns > 0 then [run.rows] else []
  }

  function Behind<D>(o: Outcome<D>, log: seq<Write>, results: seq<seq<Row>>): Outcome<D> {
    o.(log := log + o.log, results := results + o.results)
  }

  /** Everything executed in order, each statement once, until the end or the first error. */
  function Eager<D(!new)>(e: Engine<D>, c: Command, src: Source, d: D, counter: nat): Outcome<D>
    decreases Left(src)
  {
    match PrepareAndBind(e, c, src, d, true)
    case Finished(_) => Outcome(d, [], [], true)
    case Threw(_) => Outcome(d, [], [], false)
    case Ready(s, slots, rest) =>
      var run := e.execute(s, slots, d);
      if run.error then Outcome(d, [], [], false)
      else Behind(Eager(e, c, rest, run.after, Counter(run, counter)), Logged(s, slots, run, counter), ResultSets(s, run))
  }

  /** Every statement of the batch that returns rows is read-only, and none is reached whose
      parameters cannot be bound. */
  predicate Orderly<D(!new)>(e: Engine<D>, c: Command, src: Source, d: D)
    decreases Left(src)
  {
    match PrepareAndBind(e, c, src, d, true)
    case Finished(_) => true
    case Threw(rest) => PrepareFails(e, src, d)
    case Ready(s, slots, rest) =>
      var run := e.execute(s, slots, d);
      (s.columns > 0 ==> s.readOnly) && (run.error || Orderly(e, c, rest, run.after))
  }

  /** The first error of the batch comes before its first query, if it has one. */
  predicate FailsFirst<D(!new)>(e: Engine<D>, c: Command, src: Source, d: D)
    decreases Left(src)
  {
    match PrepareAndBind(e, c, src, d, true)
    case Finished(_) => false
    case Threw(_) => true
    case Ready(s, slots, rest) =>
      var run := e.execute(s, slots, d);
      s.columns == 0 && (run.error || FailsFirst(e, c, rest, run.after))
  }

  /** It is the compiling of the next statement that fails. */
  predicate PrepareFails<D(!new)>(e: Engine<D>, src: Source, d: D) {
    match src
    case Parse(text, offset) => Prepare(e, text, offset, d).OutOfRange? || Prepare(e, text, offset, d).Failed?
    case Cached(_, _) => false
  }
}
