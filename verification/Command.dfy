/** A command: binding its parameters to a statement, and the cache of its prepared statements. */
module CommandCache {
  import opened Options
  import opened Binding
  import opened Engine
  import Sqlite = Engine
  import opened BatchSplit

  /** A statement handle; its bindings outlive an execution until they are cleared.  `failed` holds
      from a step that reported an error to the next reset, which reports it once more. */
  class PreparedStatement {
    const statement: Statement
    var slots: Slots
    var failed: bool
    var disposed: bool

    constructor (s: Statement)
      ensures statement == s && slots == Unbound(s.parameters) && !failed && !disposed
    {
      statement, slots, failed, disposed := s, Unbound(s.parameters), false, false;
    }

    predicate Valid() reads this { |slots| == |statement.parameters| && !disposed }

    method Reset() returns (thrown: bool)
      modifies `failed
      ensures thrown == old(failed) && !failed
    {
      thrown := failed;
      failed := false;
    }

    method ClearBindings()
      modifies `slots
      ensures slots == Unbound(statement.parameters)
    {
      slots := Unbound(statement.parameters);
    }

    method BindParameter(index: nat, value: Value)
      requires Valid() && index < |slots|
      modifies `slots
      ensures slots == old(slots)[index := Some(value)]
    {
      slots := slots[index := Some(value)];
    }

    method Dispose()
      modifies `disposed
      ensures disposed
    {
      disposed := true;
    }
  }

  function Statements(handles: seq<PreparedStatement>): (s: seq<Statement>)
    ensures |s| == |handles| && forall i :: 0 <= i < |s| ==> s[i] == handles[i].statement
  {
    seq(|handles|, i requires 0 <= i < |handles| => handles[i].statement)
  }

  /** How far the execution of a batch has got, on either path. */
  class BatchExecutionState {
    const sql: Sql
    var sqlByteOffset: nat
    var preparedStatementIndex: nat

    constructor (text: Sql)
      ensures sql == text && sqlByteOffset == 0 && preparedStatementIndex == 0
    {
      sql, sqlByteOffset, preparedStatementIndex := text, 0, 0;
    }
  }

  /** `ResolveParameterIndex`. */
  method ResolveParameterIndex(names: seq<string>, name: string, ordinal: nat) returns (r: Resolution)
    ensures r == Resolve(names, name, ordinal)
  {
    if name == "" {
      if ordinal < |names| && names[ordinal] == "" { return At(ordinal); }
      return Fails(NameNotSet);
    }
    var index := IndexOf(names, name);
    if index.Some? { return At(index.value); }
    var coreName := CoreName(name);
    var matchCount, matched := 0, 0;
    var idx1 := IndexOf(names, "@" + coreName);
    if idx1.Some? { matchCount, matched := matchCount + 1, idx1.value; }
    var idx2 := IndexOf(names, ":" + coreName);
    if idx2.Some? { matchCount, matched := matchCount + 1, idx2.value; }
    var idx3 := IndexOf(names, "$" + coreName);
    if idx3.Some? { matchCount, matched := matchCount + 1, idx3.value; }
    if matchCount > 1 { return Fails(AmbiguousName); }
    if matchCount == 1 { return At(matched); }
    return NoMatch;
  }

  /** Exactly the marked slots have a value. */
  ghost predicate Matches(bound: array<bool>, slots: Slots)
    reads bound
  {
    |slots| == bound.Length && forall k :: 0 <= k < |slots| ==> bound[k] == slots[k].Some?
  }

  /** The loop of `ThrowIfMissingParameters`. */
  method MissingParameters(bound: array<bool>) returns (missing: seq<nat>)
    ensures forall slots: Slots | Matches(bound, slots) :: missing == Holes(slots, 0)
  {
    missing := [];
    var i := 0;
    while i < bound.Length
      invariant i <= bound.Length
      invariant forall slots: Slots | Matches(bound, slots) :: missing + Holes(slots, i) == Holes(slots, 0)
    {
      if !bound[i] { missing := missing + [i]; }
      i := i + 1;
    }
  }

  /** The bindings of a handle, and which of its parameters the loop of `BindParameters` has bound. */
  ghost predicate BoundSoFar(stmt: PreparedStatement, parameters: seq<Parameter>, bound: array<bool>, n: nat)
    requires n <= |parameters|
    reads stmt, bound
  {
    BindFirst(stmt.statement.parameters, parameters, n) == Ok(stmt.slots) && Matches(bound, stmt.slots)
  }

  /** One turn of the loop of `BindParameters`. */
  method BindEntry(stmt: PreparedStatement, parameters: seq<Parameter>, bound: array<bool>, i: nat)
    returns (error: Option<Error>)
    requires i < |parameters| && BoundSoFar(stmt, parameters, bound, i) && !stmt.disposed
    modifies stmt`slots, bound
    ensures stmt.Valid()
    ensures match BindFirst(stmt.statement.parameters, parameters, i + 1)
            case Ok(_) => error == None && BoundSoFar(stmt, parameters, bound, i + 1)
            case Err(e) => error == Some(e)
  {
    var parameter := parameters[i];
    if parameter.value.None? { return Some(ValueNotSet); }
    var resolution := ResolveParameterIndex(stmt.statement.parameters, parameter.name, i);
    if resolution.Fails? { return Some(resolution.error); }
    if resolution.At? {
      stmt.BindParameter(resolution.index, parameter.value.value);
      bound[resolution.index] := true;
    }
    return None;
  }

  /** `BindParameters` on a handle without bindings. */
  method BindParameters(stmt: PreparedStatement, parameters: seq<Parameter>, strict: bool) returns (error: Option<Error>)
    requires stmt.slots == Unbound(stmt.statement.parameters) && !stmt.disposed
    modifies stmt`slots
    ensures stmt.Valid()
    ensures match Bind(stmt.statement.parameters, parameters, strict)
            case Ok(slots) => error == None && stmt.slots == slots
            case Err(e) => error == Some(e)
  {
    var bound := new bool[|stmt.statement.parameters|](_ => false);
    var i := 0;
    while i < |parameters|
      invariant i <= |parameters| && fresh(bound)
      invariant BoundSoFar(stmt, parameters, bound, i)
    {
      error := BindEntry(stmt, parameters, bound, i);
      if error.Some? {
        BindStops(stmt.statement.parameters, parameters, i + 1);
        return;
      }
      i := i + 1;
    }
    if strict {
      var missing := MissingParameters(bound);
      if missing != [] { return Some(Missing(missing)); }
    }
    return None;
  }

  /** An entry that cannot be bound is the error of the whole. */
  lemma {:induction false} BindStops(names: seq<string>, ps: seq<Parameter>, n: nat)
    requires n <= |ps| && BindFirst(names, ps, n).Err?
    ensures BindFirst(names, ps, |ps|) == BindFirst(names, ps, n)
    decreases |ps| - n
  {
    if n < |ps| { BindStops(names, ps, n + 1); }
  }

  class SqliteCommand<D(!new)> {
    const engine: Engine<D>
    const isExplain: Sql -> bool
    var commandText: Sql
    var connection: Option<nat>
    var parameters: seq<Parameter>
    var preparedStatements: seq<PreparedStatement>
    var prepared: bool
    /** The database the prepared statements were compiled in. */
    ghost var preparedIn: Option<D>

    constructor (engine: Engine<D>, isExplain: Sql -> bool)
      ensures Valid() && !prepared && commandText == [] && connection == None
      ensures this.engine == engine && this.isExplain == isExplain
    {
      this.engine, this.isExplain := engine, isExplain;
      commandText, connection, parameters, preparedStatements, prepared, preparedIn := [], None, [], [], false, None;
    }

    /** The cache invariant: while `_prepared` holds, the prepared statements are exactly the split
        of the current text in the database they were compiled in; each has a handle of its own, and
        none has been disposed of. */
    ghost predicate Valid()
      reads this, preparedStatements
    {
      && (forall i :: 0 <= i < |preparedStatements| ==> preparedStatements[i].Valid())
      && (forall i, j :: 0 <= i < j < |preparedStatements| ==> preparedStatements[i] != preparedStatements[j])
      && (prepared ==>
            && connection.Some? && preparedIn.Some?
            && Split(engine, commandText, 0, preparedIn.value) == Some(Statements(preparedStatements)))
    }

    function Arguments(): Command
      reads this
    {
      Command(parameters, isExplain(commandText))
    }

    /** Where a reader with this batch state takes its next statement from. */
    function SourceOf(batch: BatchExecutionState): Source
      reads this, batch
    {
      if prepared then Cached(Statements(preparedStatements), batch.preparedStatementIndex)
      else Parse(batch.sql, batch.sqlByteOffset)
    }

    /** `DisposePreparedStatements`, which is also what `InvalidateStatementCache` does to the list. */
    method DisposePreparedStatements()
      requires Valid()
      modifies `preparedStatements, `prepared, preparedStatements
      ensures Valid() && preparedStatements == [] && !prepared
      ensures forall h :: h in old(preparedStatements) ==> h.disposed
    {
      var i := 0;
      while i < |preparedStatements|
        invariant i <= |preparedStatements| && preparedStatements == old(preparedStatements)
        invariant forall k :: 0 <= k < i ==> preparedStatements[k].disposed
      {
        preparedStatements[i].Dispose();
        i := i + 1;
      }
      preparedStatements := [];
      prepared := false;
    }

    method SetCommandText(value: Sql)
      requires Valid()
      modifies `commandText, `preparedStatements, `prepared, preparedStatements
      ensures Valid() && commandText == value
      ensures if value == old(commandText) then preparedStatements == old(preparedStatements) && prepared == old(prepared)
              else preparedStatements == [] && !prepared && forall h :: h in old(preparedStatements) ==> h.disposed
    {
      if commandText == value { return; }
      DisposePreparedStatements();
      commandText := value;
    }

    method SetConnection(value: Option<nat>)
      requires Valid()
      modifies `connection, `preparedStatements, `prepared, preparedStatements
      ensures Valid() && connection == value
      ensures if value == old(connection) then preparedStatements == old(preparedStatements) && prepared == old(prepared)
              else preparedStatements == [] && !prepared && forall h :: h in old(preparedStatements) ==> h.disposed
    {
      if connection == value { return; }
      DisposePreparedStatements();
      connection := value;
    }

    /** `PrepareAndEnumerateStatements`: an error leaves the statements before it in the list, and
        the list unused. */
    method PrepareAndEnumerateStatements(d: D) returns (ok: bool)
      requires Valid() && connection.Some?
      modifies `preparedStatements, `prepared, `preparedIn, preparedStatements
      ensures Valid() && ok == prepared == Split(engine, commandText, 0, d).Some?
      ensures ok ==> preparedIn == Some(d)
      ensures exists cuts :: ReadsTo(engine, commandText, d, cuts, Statements(preparedStatements), ok)
      ensures forall h :: h in preparedStatements ==> fresh(h)
      ensures forall h :: h in old(preparedStatements) ==> h.disposed
    {
      DisposePreparedStatements();
      var offset := 0;
      ghost var cuts: seq<nat> := [0];
      while true
        invariant !prepared && Valid() && offset <= |commandText|
        invariant Cuts(engine, commandText, d, cuts, Statements(preparedStatements))
        invariant cuts[0] == 0 && cuts[|preparedStatements|] == offset
        invariant forall h :: h in preparedStatements ==> fresh(h)
        invariant forall h :: h in old(preparedStatements) ==> h.disposed
        decreases |commandText| - offset
      {
        var next := Sqlite.Prepare(engine, commandText, offset, d);
        if next.OutOfRange? || next.Failed? {
          assert ReadsTo(engine, commandText, d, cuts, Statements(preparedStatements), false);
          SplitIsNative(engine, commandText, d, Statements(preparedStatements));
          return false;
        }
        if next.Nothing? { break; }
        var handle := new PreparedStatement(next.statement);
        assert Statements(preparedStatements + [handle]) == Statements(preparedStatements) + [next.statement];
        preparedStatements := preparedStatements + [handle];
        cuts := cuts + [next.next];
        offset := next.next;
      }
      assert ReadsTo(engine, commandText, d, cuts, Statements(preparedStatements), true);
      SplitIsNative(engine, commandText, d, Statements(preparedStatements));
      preparedIn := Some(d);
      prepared := true;
      return true;
    }

    /** `Prepare`: false where it throws. */
    method Prepare(d: D) returns (ok: bool)
      requires Valid()
      modifies `preparedStatements, `prepared, `preparedIn, preparedStatements
      ensures Valid() && ok == prepared
      ensures ok <==> old(prepared) || (connection.Some? && Split(engine, commandText, 0, d).Some?)
      ensures old(prepared) || connection.None? ==>
        preparedStatements == old(preparedStatements) && preparedIn == old(preparedIn)
      ensures !old(prepared) && ok ==> preparedIn == Some(d)
    {
      if prepared { return true; }
      if connection.None? { return false; }
      ok := PrepareAndEnumerateStatements(d);
    }

    /** `PrepareAndBindNext`: the next statement with the command's arguments bound to it, and
        nothing else bound; null at the end of the batch.  A prepared command hands out the handle
        that is next in its list; if that one has failed, its reset throws. */
    method PrepareAndBindNext(batch: BatchExecutionState, d: D, strict: bool)
      returns (stmt: PreparedStatement?, thrown: bool)
      requires Valid()
      modifies batch, preparedStatements
      ensures Valid() && prepared == old(prepared) && preparedStatements == old(preparedStatements)
      ensures old(NextFailed(batch)) ==>
        thrown && stmt == null && batch.preparedStatementIndex == old(batch.preparedStatementIndex) + 1
      ensures !old(NextFailed(batch)) ==>
        match PrepareAndBind(engine, Arguments(), old(SourceOf(batch)), d, strict)
        case Ready(s, slots, src) =>
          && !thrown && stmt != null && stmt.statement == s && stmt.slots == slots && SourceOf(batch) == src
          && if prepared then stmt == preparedStatements[old(batch.preparedStatementIndex)] else fresh(stmt)
        case Finished(src) => !thrown && stmt == null && SourceOf(batch) == src
        case Threw(src) => thrown && stmt == null && SourceOf(batch) == src
      ensures forall i :: 0 <= i < |preparedStatements| && !(prepared && i == old(batch.preparedStatementIndex)) ==>
        unchanged(preparedStatements[i])
    {
      if prepared {
        stmt, thrown := PrepareAndBindFromCache(batch, strict);
        return;
      }
      match Sqlite.Prepare(engine, batch.sql, batch.sqlByteOffset, d) {
        case OutOfRange => return null, true;
        case Failed => return null, true;
        case Nothing(next) =>
          batch.sqlByteOffset := next;
          return null, false;
        case Found(s, next) =>
          batch.sqlByteOffset := next;
          stmt := new PreparedStatement(s);
          var error := BindParameters(stmt, parameters, strict && !isExplain(commandText));
          if error.Some? { return null, true; }
          return stmt, false;
      }
    }

    /** The handle next in the list has failed and not been reset. */
    predicate NextFailed(batch: BatchExecutionState)
      reads this, batch, preparedStatements
    {
      prepared && batch.preparedStatementIndex < |preparedStatements| && preparedStatements[batch.preparedStatementIndex].failed
    }

    method PrepareAndBindFromCache(batch: BatchExecutionState, strict: bool)
      returns (stmt: PreparedStatement?, thrown: bool)
      requires Valid() && prepared
      modifies batch`preparedStatementIndex, preparedStatements
      ensures Valid()
      ensures
        var index := old(batch.preparedStatementIndex);
        if index >= |preparedStatements| then !thrown && stmt == null && batch.preparedStatementIndex == index
        else
          && batch.preparedStatementIndex == index + 1 && !preparedStatements[index].failed
          && if old(preparedStatements[index].failed) then thrown && stmt == null
             else match Bind(preparedStatements[index].statement.parameters, parameters, strict && !isExplain(commandText))
             case Ok(slots) => !thrown && stmt == preparedStatements[index] && stmt.slots == slots
             case Err(_) => thrown && stmt == null
      ensures forall i :: 0 <= i < |preparedStatements| && i != old(batch.preparedStatementIndex) ==>
        unchanged(preparedStatements[i])
    {
      var index := batch.preparedStatementIndex;
      if index >= |preparedStatements| { return null, false; }
      stmt := preparedStatements[index];
      batch.preparedStatementIndex := index + 1;
      thrown := stmt.Reset();
      if thrown { return null, true; }
      stmt.ClearBindings();
      var error := BindParameters(stmt, parameters, strict && !isExplain(commandText));
      if error.Some? { return null, true; }
      return stmt, false;
    }

    /** `ReleaseStatement`: a handle of a prepared command goes back reset, without bindings unless
        the reset reports an error; any other is disposed of. */
    method ReleaseStatement(stmt: PreparedStatement?) returns (thrown: bool)
      requires Valid() && (stmt != null ==> stmt.Valid() && (prepared <==> stmt in preparedStatements))
      modifies stmt
      ensures Valid() && thrown == (stmt != null && prepared && old(stmt.failed))
      ensures stmt != null && prepared ==>
        !stmt.failed && !stmt.disposed && stmt.slots == if thrown then old(stmt.slots) else Unbound(stmt.statement.parameters)
      ensures stmt != null && !prepared ==> stmt.disposed
    {
      if stmt == null { return false; }
      if prepared {
        thrown := stmt.Reset();
        if thrown { return; }
        stmt.ClearBindings();
      } else {
        stmt.Dispose();
        thrown := false;
      }
    }
  }
}
