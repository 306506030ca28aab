/** A batch split into its statements: executing the prepared statements in order means the same as
    executing the text. */
module BatchSplit {
  import opened Options
  import opened Binding
  import opened Engine

  // ---- preparing ahead ----

  /** What is expected of the databases while a text is read: `arises(o, d)` says that `d` may be
      the database when the reader comes to offset `o`. */
  datatype Forecast<!D> = Forecast(text: Sql, arises: (nat, D) -> bool)

  /** Executing a statement leads from a database that may arise at offset `o` to another one. */
  ghost predicate Absorbs<D(!new)>(e: Engine<D>, s: Statement, f: Forecast<D>, o: nat) {
    forall slots: Slots, d: D :: f.arises(o, d) ==> f.arises(o, e.execute(s, slots, d).after)
  }

  ghost predicate Leads<D(!new)>(e: Engine<D>, f: Forecast<D>, o: nat, d: D) {
    match Prepare(e, f.text, o, d)
    case Found(s, next) => f.arises(next, d) && Absorbs(e, s, f, next)
    case Nothing(next) => f.arises(next, d)
    case _ => true
  }

  /** The text can be prepared ahead: in all databases that may arise at an offset the same
      statement comes next there; and they, and what executing that statement makes of them, may
      arise at the offset behind it.  A text that only changes rows meets this with the databases of
      one schema; so does CREATE TABLE, if no statement behind it uses the table. */
  ghost predicate Foreseen<D(!new)>(e: Engine<D>, f: Forecast<D>) {
    && (forall o: nat, d: D, d': D :: f.arises(o, d) && f.arises(o, d') ==> e.prepare(f.text, o, d) == e.prepare(f.text, o, d'))
    && (forall o: nat, d: D :: f.arises(o, d) ==> Leads(e, f, o, d))
  }

  /** The statements of a text from an offset on, compiled in one database; None if one of them does
      not compile. */
  function Split<D(!new)>(e: Engine<D>, text: Sql, offset: nat, d: D): Option<seq<Statement>>
    decreases if offset <= |text| then |text| - offset else 0
  {
    match Prepare(e, text, offset, d)
    case OutOfRange | Failed => None
    case Nothing(_) => Some([])
    case Found(s, next) =>
      match Split(e, text, next, d)
      case None => None
      case Some(rest) => Some([s] + rest)
  }

  // ---- the split, by what the engine answers ----

  /** The engine, asked at the first cut, finds the first statement and leaves off at the second cut, and
      so on: a statement lies between each cut and the next. */
  ghost predicate Cuts<D(!new)>(e: Engine<D>, text: Sql, d: D, cuts: seq<nat>, found: seq<Statement>) {
    && |cuts| == |found| + 1
    && forall i :: 0 <= i < |found| ==>
         e.prepare(text, cuts[i], d) == Native(true, Some(found[i]), Some(cuts[i + 1]))
  }

  lemma {:induction false} CutsStayInside<D(!new)>(e: Engine<D>, text: Sql, d: D, cuts: seq<nat>, found: seq<Statement>, i: nat)
    requires Cuts(e, text, d, cuts, found) && i <= |found| && cuts[0] <= |text|
    ensures cuts[i] <= |text|
  {
    if i > 0 { assert e.prepare(text, cuts[i - 1], d).tail == Some(cuts[i]); }
  }

  /** What a text is cut into depends on what comes behind the last cut only. */
  lemma {:induction false} SplitAtCuts<D(!new)>(e: Engine<D>, text: Sql, d: D, cuts: seq<nat>, found: seq<Statement>)
    requires Cuts(e, text, d, cuts, found) && cuts[0] <= |text|
    ensures Split(e, text, cuts[0], d) ==
      match Split(e, text, cuts[|found|], d)
      case None => None
      case Some(rest) => Some(found + rest)
    decreases |found|
  {
    var tail := Split(e, text, cuts[|found|], d);
    if found == [] {
      if tail.Some? { assert found + tail.value == tail.value; }
    } else {
      assert e.prepare(text, cuts[0], d) == Native(true, Some(found[0]), Some(cuts[1]));
      CutsStayInside(e, text, d, cuts, found, 1);
      SplitAtCuts(e, text, d, cuts[1..], found[1..]);
      if tail.Some? { assert [found[0]] + (found[1..] + tail.value) == found + tail.value; }
    }
  }

  lemma {:induction false} SplitHasCuts<D(!new)>(e: Engine<D>, text: Sql, d: D, offset: nat)
    returns (cuts: seq<nat>, found: seq<Statement>)
    requires offset <= |text|
    ensures Cuts(e, text, d, cuts, found) && cuts[0] == offset && cuts[|found|] <= |text|
    ensures var last := e.prepare(text, cuts[|found|], d);
      (!last.ok || last.statement.None?) && Split(e, text, offset, d) == if last.ok then Some(found) else None
    decreases |text| - offset
  {
    var n := e.prepare(text, offset, d);
    if n.ok && n.statement.Some? {
      var rest, more := SplitHasCuts(e, text, d, n.tail.value);
      cuts, found := [offset] + rest, [n.statement.value] + more;
    } else {
      cuts, found := [offset], [];
    }
  }

  ghost predicate ReadsTo<D(!new)>(e: Engine<D>, text: Sql, d: D, cuts: seq<nat>, found: seq<Statement>, ok: bool) {
    && Cuts(e, text, d, cuts, found) && cuts[0] == 0
    && var last := e.prepare(text, cuts[|found|], d);
       last.ok == ok && (ok ==> last.statement.None?)
  }

  /** The split of a text, by what the engine answers alone.  It is a list of statements exactly if the
      engine finds these between cuts that begin at 0, each where the one before left off, and nothing
      behind the last; and there is none exactly if at the last of such cuts the engine reports an
      error, where the reader throws and stays. */
  lemma SplitIsNative<D(!new)>(e: Engine<D>, text: Sql, d: D, all: seq<Statement>)
    ensures Split(e, text, 0, d) == Some(all) <==> exists cuts :: ReadsTo(e, text, d, cuts, all, true)
    ensures Split(e, text, 0, d) == None <==> exists cuts, found :: ReadsTo(e, text, d, cuts, found, false)
    ensures forall cuts, found, c: Command, strict: bool | ReadsTo(e, text, d, cuts, found, false) ::
      var src := Parse(text, cuts[|found|]); PrepareAndBind(e, c, src, d, strict) == Threw(src)
  {
    var cuts, found := SplitHasCuts(e, text, d, 0);
    assert ReadsTo(e, text, d, cuts, found, e.prepare(text, cuts[|found|], d).ok);
    forall cuts, found, ok | ReadsTo(e, text, d, cuts, found, ok)
      ensures Split(e, text, 0, d) == if ok then Some(found) else None
    {
      SplitAtCuts(e, text, d, cuts, found);
      CutsStayInside(e, text, d, cuts, found, |found|);
      assert found + [] == found;
    }
    forall cuts, found, c: Command, strict: bool | ReadsTo(e, text, d, cuts, found, false)
      ensures var src := Parse(text, cuts[|found|]); PrepareAndBind(e, c, src, d, strict) == Threw(src)
    {
      CutsStayInside(e, text, d, cuts, found, |found|);
    }
  }

  /** Where a reader of a text is after its next statement: where the engine left off, or behind the
      terminator if it does not say. */
  lemma ReadsOnAtTail<D(!new)>(e: Engine<D>, c: Command, text: Sql, offset: nat, d: D, strict: bool)
    requires offset <= |text| + 1
    ensures
      var native, n := e.prepare(text, offset, d), PrepareAndBind(e, c, Parse(text, offset), d, strict);
      if !native.ok then n == Threw(Parse(text, offset))
      else
        && n.src == Parse(text, if native.tail.Some? then native.tail.value else |text| + 1)
        && (n.Finished? <==> native.statement.None?) && (n.Ready? ==> native.statement == Some(n.statement))
  {
  }

  lemma {:induction false} SplitForeseen<D(!new)>(e: Engine<D>, f: Forecast<D>, offset: nat, d: D, d': D)
    requires Foreseen(e, f) && f.arises(offset, d) && f.arises(offset, d')
    ensures Split(e, f.text, offset, d) == Split(e, f.text, offset, d')
    decreases if offset <= |f.text| then |f.text| - offset else 0
  {
    assert e.prepare(f.text, offset, d) == e.prepare(f.text, offset, d');
    assert Leads(e, f, offset, d) && Leads(e, f, offset, d');
    match Prepare(e, f.text, offset, d)
    case Found(_, next) => SplitForeseen(e, f, next, d, d');
    case _ =>
  }

  lemma SplitStep<D(!new)>(e: Engine<D>, text: Sql, offset: nat, d: D, all: seq<Statement>, index: nat)
    requires index <= |all| && Split(e, text, offset, d) == Some(all[index..])
    ensures
      match Prepare(e, text, offset, d)
      case Found(s, next) => index < |all| && all[index] == s && Split(e, text, next, d) == Some(all[index + 1..])
      case Nothing(_) => index == |all|
      case _ => false
  {
    match Prepare(e, text, offset, d)
    case Found(s, next) =>
      var rest := Split(e, text, next, d).value;
      assert all[index] == ([s] + rest)[0] && all[index + 1..] == ([s] + rest)[1..];
    case Nothing(_) => assert |all[index..]| == 0;
    case _ =>
  }

  /** Eager execution from the text and from its prepared statements is the same. */
  lemma {:induction false} EagerFromCache<D(!new)>(e: Engine<D>, c: Command, f: Forecast<D>, offset: nat, d: D, n: nat,
      all: seq<Statement>, index: nat)
    requires Foreseen(e, f) && f.arises(offset, d)
    requires index <= |all| && Split(e, f.text, offset, d) == Some(all[index..])
    ensures Eager(e, c, Parse(f.text, offset), d, n) == Eager(e, c, Cached(all, index), d, n)
    ensures Orderly(e, c, Parse(f.text, offset), d) == Orderly(e, c, Cached(all, index), d)
    decreases |all| - index
  {
    SplitStep(e, f.text, offset, d, all, index);
    assert Leads(e, f, offset, d);
    match Prepare(e, f.text, offset, d)
    case Found(s, next) =>
      match Bind(s.parameters, c.parameters, !c.explain) {
        case Ok(slots) =>
          var run := e.execute(s, slots, d);
          SplitForeseen(e, f, next, d, run.after);
          EagerFromCache(e, c, f, next, run.after, Counter(run, n), all, index + 1);
        case Err(_) =>
      }
    case _ =>
  }

  /** How to meet Foreseen: statements that compile the same in all databases of one schema, and keep it,
      can be prepared ahead in any of them. */
  lemma SchemaKept<D(!new), S>(e: Engine<D>, text: Sql, schema: D -> S, k: S)
    requires forall o: nat, d: D, d': D :: schema(d) == schema(d') == k ==> e.prepare(text, o, d) == e.prepare(text, o, d')
    requires forall o: nat, d: D, slots: Slots, d': D ::
      schema(d) == k && schema(d') == k && Prepare(e, text, o, d).Found? ==>
        schema(e.execute(Prepare(e, text, o, d).statement, slots, d').after) == k
    ensures Foreseen(e, Forecast(text, (o: nat, d: D) => schema(d) == k))
  {
    var f := Forecast(text, (o: nat, d: D) => schema(d) == k);
    forall o: nat, d: D | f.arises(o, d) ensures Leads(e, f, o, d) {
      if Prepare(e, text, o, d).Found? {
        assert Absorbs(e, Prepare(e, text, o, d).statement, f, Prepare(e, text, o, d).next);
      }
    }
  }
}
