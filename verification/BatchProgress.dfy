/** A reader goes through its batch forward and without a gap, from the text or from the prepared
    statements, whatever its caller does and whatever goes wrong. */
module BatchProgress {
  import opened Options
  import opened Binding
  import opened Engine
  import opened ReaderModel
  import opened ReaderFrame
  import BatchSplit

  // ---- pieces of a batch ----

  /** A statement that has been passed, where it begins and ends, and the database it was compiled in. */
  datatype Piece<D> = Piece(statement: Statement, from: nat, to: nat, db: D)

  function Position(src: Source): nat {
    match src
    case Parse(_, offset) => offset
    case Cached(_, index) => index
  }

  function Limit(src: Source): nat {
    match src
    case Parse(text, _) => |text| + 1
    case Cached(statements, _) => |statements|
  }

  function At(src: Source, position: nat): Source {
    match src
    case Parse(text, _) => Parse(text, position)
    case Cached(statements, _) => Cached(statements, position)
  }

  /** What taking the next statement passes, whether its parameters can be bound or not. */
  function Passed<D(!new)>(e: Engine<D>, src: Source, d: D): seq<Piece<D>> {
    match src
    case Parse(text, offset) =>
      (match Prepare(e, text, offset, d)
       case Found(s, next) => [Piece(s, offset, next, d)]
       case _ => [])
    case Cached(statements, index) => if index < |statements| then [Piece(statements[index], index, index + 1, d)] else []
  }

  /** The pieces lie one behind the other from the source on, and each is what is passed there. */
  ghost predicate Chain<D(!new)>(e: Engine<D>, src: Source, pieces: seq<Piece<D>>)
    decreases |pieces|
  {
    pieces == [] ||
      (Passed(e, src, pieces[0].db) == [pieces[0]] && Chain(e, At(src, pieces[0].to), pieces[1..]))
  }

  function End<D>(src: Source, pieces: seq<Piece<D>>): nat {
    if pieces == [] then Position(src) else pieces[|pieces| - 1].to
  }

  /** No statement is left, whatever the database. */
  ghost predicate Ended<D(!new)>(e: Engine<D>, src: Source) {
    src.Parse? && forall d :: Prepare(e, src.text, src.offset, d).Nothing?
  }

  /** From one source to the other the pieces are passed without a gap; only behind the last
      statement may there be a rest of the text without any. */
  ghost predicate Tiled<D(!new)>(e: Engine<D>, src: Source, next: Source, pieces: seq<Piece<D>>) {
    && next == At(src, Position(next)) && Position(src) <= Position(next)
    && (Position(src) <= Limit(src) ==> Position(next) <= Limit(src))
    && Chain(e, src, pieces)
    && (Position(next) == End(src, pieces) || (Position(next) > End(src, pieces) && Ended(e, next)))
  }

  lemma TiledNothing<D(!new)>(e: Engine<D>, src: Source)
    ensures Tiled(e, src, src, [])
  {
  }

  lemma {:induction false} ChainTrans<D(!new)>(e: Engine<D>, a: Source, b: Source, p: seq<Piece<D>>, q: seq<Piece<D>>)
    requires Chain(e, a, p) && Chain(e, b, q) && b == At(a, End(a, p))
    ensures Chain(e, a, p + q) && End(a, p + q) == End(b, q)
    decreases |p|
  {
    if p == [] {
      assert p + q == q;
    } else {
      var next := At(a, p[0].to);
      assert (p + q)[1..] == p[1..] + q;
      assert End(next, p[1..]) == End(a, p);
      ChainTrans(e, next, b, p[1..], q);
    }
  }

  lemma TiledTrans<D(!new)>(e: Engine<D>, a: Source, b: Source, c: Source, p: seq<Piece<D>>, q: seq<Piece<D>>)
    requires Tiled(e, a, b, p) && Tiled(e, b, c, q)
    ensures Tiled(e, a, c, p + q)
  {
    if Position(b) == End(a, p) {
      ChainTrans(e, a, b, p, q);
    } else {
      assert q == [] && p + q == p;
    }
  }

  lemma NothingEnds<D(!new)>(e: Engine<D>, text: Sql, offset: nat, d: D)
    requires Prepare(e, text, offset, d).Nothing?
    ensures Ended(e, Parse(text, Prepare(e, text, offset, d).next))
  {
  }

  /** Taking the next statement. */
  lemma NextTiles<D(!new)>(e: Engine<D>, c: Command, src: Source, d: D, strict: bool)
    ensures Tiled(e, src, PrepareAndBind(e, c, src, d, strict).src, Passed(e, src, d))
  {
    if src.Parse? && Prepare(e, src.text, src.offset, d).Nothing? { NothingEnds(e, src.text, src.offset, d); }
  }

  /** Slot `k` has the value of the last entry that resolves to it, and with the check it has one. */
  ghost predicate BoundAt(names: seq<string>, ps: seq<Parameter>, slots: Slots, checked: bool, k: nat)
    requires k < |slots|
  {
    (forall i: nat :: LastHit(names, ps, |ps|, i, k) ==> slots[k] == ps[i].value) && (checked ==> slots[k].Some?)
  }

  /** Which statement comes next, and what is bound to it: the one passed, with each parameter bound to
      the last entry of the collection that resolves to it; a parameter with no such entry is
      tolerated only without the check.  Nothing comes where nothing is passed.  An error is the
      compiling that fails, or a statement that has been passed and whose parameters cannot be bound. */
  lemma NextStatement<D(!new)>(e: Engine<D>, c: Command, src: Source, d: D, strict: bool)
    ensures
      var checked := strict && !c.explain;
      match PrepareAndBind(e, c, src, d, strict)
      case Ready(s, slots, next) =>
        && Passed(e, src, d) == [Piece(s, Position(src), Position(next), d)] && |slots| == |s.parameters|
        && forall k: nat :: k < |slots| ==> BoundAt(s.parameters, c.parameters, slots, checked, k)
      case Finished(_) => Passed(e, src, d) == []
      case Threw(next) =>
        || (Passed(e, src, d) == [] && next == src && PrepareFails(e, src, d))
        || (|Passed(e, src, d)| == 1 && Position(next) == Passed(e, src, d)[0].to
            && Bind(Passed(e, src, d)[0].statement.parameters, c.parameters, checked).Err?)
  {
    var n := PrepareAndBind(e, c, src, d, strict);
    var checked := strict && !c.explain;
    if n.Ready? {
      forall k: nat | k < |n.slots| ensures BoundAt(n.statement.parameters, c.parameters, n.slots, checked, k) {
        BindingComplete(n.statement.parameters, c.parameters, checked, k);
      }
    }
  }

  // ---- what a reader passes ----

  function AdvancePieces<D(!new)>(x: Context<D>, st: State<D>): seq<Piece<D>>
    decreases Left(st.source)
  {
    if ReleaseThrows(st) then []
    else
      Passed(x.engine, st.source, st.db) +
        match PrepareAndBind(x.engine, x.command, st.source, st.db, true)
        case Ready(s, slots, src) =>
          var (done, a) := RunToEnd(x, Take(Detached(AddChanges(st)), s, slots, src));
          if s.columns > 0 || a.Thrown? then [] else AdvancePieces(x, done)
        case _ => []
  }

  function DrainPieces<D(!new)>(x: Context<D>, st: State<D>): seq<Piece<D>>
    decreases Left(st.source)
  {
    Passed(x.engine, st.source, st.db) +
      match PrepareAndBind(x.engine, x.command, st.source, st.db, false)
      case Ready(s, slots, src) =>
        var (done, a) := RunToEnd(x, Take(st, s, slots, src));
        if a.Thrown? then [] else DrainPieces(x, AddChanges(done))
      case _ => []
  }

  function ClosePieces<D(!new)>(x: Context<D>, st: State<D>): seq<Piece<D>> {
    if st.closed then []
    else if st.live.None? then DrainPieces(x, st)
    else
      var (done, a) := RunToEnd(x, st);
      if a.Thrown? then [] else DrainPieces(x, AddChanges(done))
  }

  function DoPieces<D(!new)>(x: Context<D>, st: State<D>, call: Call): seq<Piece<D>> {
    if st.closed then []
    else
      match call
      case CallHasRows => []
      case CallRead =>
        if ReadRow(x, st).1.No? && x.singleRow then ClosePieces(x, AddChanges(ReadRow(x, st).0)) else []
      case CallNextResult => if x.singleResult then [] else AdvancePieces(x, st)
      case CallClose => ClosePieces(x, st)
  }

  function DrivePieces<D(!new)>(x: Context<D>, st: State<D>, calls: seq<Call>): seq<Piece<D>>
    decreases |calls|
  {
    if calls == [] then [] else DoPieces(x, st, calls[0]) + DrivePieces(x, Do(x, st, calls[0]).0, calls[1..])
  }

  function CreatePieces<D(!new)>(x: Context<D>, src: Source, d: D, n: nat): seq<Piece<D>> {
    var (st, a) := Advance(x, Fields(src, d, n));
    AdvancePieces(x, Fields(src, d, n)) + if a.Thrown? then ClosePieces(x, st) else []
  }

  // ---- without skip or repeat ----

  lemma {:induction false} AdvanceTiles<D(!new)>(x: Context<D>, st: State<D>)
    ensures Tiled(x.engine, st.source, Advance(x, st).0.source, AdvancePieces(x, st))
    decreases Left(st.source)
  {
    if ReleaseThrows(st) {
      TiledNothing(x.engine, st.source);
    } else {
      var n := PrepareAndBind(x.engine, x.command, st.source, st.db, true);
      NextTiles(x.engine, x.command, st.source, st.db, true);
      if n.Ready? && n.statement.columns == 0 {
        var (done, a) := RunToEnd(x, Take(Detached(AddChanges(st)), n.statement, n.slots, n.src));
        if !a.Thrown? {
          AdvanceTiles(x, done);
          TiledTrans(x.engine, st.source, n.src, Advance(x, done).0.source,
                     Passed(x.engine, st.source, st.db), AdvancePieces(x, done));
        }
      }
      assert Passed(x.engine, st.source, st.db) + [] == Passed(x.engine, st.source, st.db);
    }
  }

  lemma {:induction false} DrainTiles<D(!new)>(x: Context<D>, st: State<D>)
    ensures Tiled(x.engine, st.source, DrainRest(x, st).source, DrainPieces(x, st))
    decreases Left(st.source)
  {
    var n := PrepareAndBind(x.engine, x.command, st.source, st.db, false);
    NextTiles(x.engine, x.command, st.source, st.db, false);
    if n.Ready? {
      var (done, a) := RunToEnd(x, Take(st, n.statement, n.slots, n.src));
      if !a.Thrown? {
        DrainTiles(x, AddChanges(done));
        TiledTrans(x.engine, st.source, n.src, DrainRest(x, AddChanges(done)).source, Passed(x.engine, st.source, st.db),
                   DrainPieces(x, AddChanges(done)));
      }
    }
    assert Passed(x.engine, st.source, st.db) + [] == Passed(x.engine, st.source, st.db);
  }

  lemma CloseTiles<D(!new)>(x: Context<D>, st: State<D>)
    ensures Tiled(x.engine, st.source, Close(x, st).0.source, ClosePieces(x, st))
  {
    TiledNothing(x.engine, st.source);
    if !st.closed {
      if st.live.None? { DrainTiles(x, st); } else { DrainAllTiles(x, st); }
    }
  }

  lemma DrainAllTiles<D(!new)>(x: Context<D>, st: State<D>)
    requires st.live.Some? && !st.closed
    ensures Tiled(x.engine, st.source, Drain(x, st).source, ClosePieces(x, st))
  {
    TiledNothing(x.engine, st.source);
    var done := RunToEnd(x, st).0;
    CountingKeepsSource(done);
    DrainTiles(x, AddChanges(done));
  }

  lemma CountingKeepsSource<D(!new)>(st: State<D>)
    ensures AddChanges(st).source == st.source
  {
  }

  lemma StepKeepsSource<D(!new)>(x: Context<D>, st: State<D>)
    requires st.live.Some?
    ensures Step(x, st).0.source == st.source
  {
    assert [] + st.log == st.log;
    StepAlike(x, [], st, st);
  }

  lemma ReadRowKeepsSource<D(!new)>(x: Context<D>, st: State<D>)
    ensures ReadRow(x, st).0.source == st.source && (st.closed <==> ReadRow(x, st).0.closed)
  {
    if st.live.Some? { 
      var started := st.(readStarted := true);
      assert [] + started.log == started.log;
      StepAlike(x, [], started, started);
      StepKeepsClosed(x, started);
    }
  }

  lemma StepKeepsClosed<D(!new)>(x: Context<D>, st: State<D>)
    requires st.live.Some?
    ensures Step(x, st).0.closed == st.closed
  {
  }

  lemma DoTiles<D(!new)>(x: Context<D>, st: State<D>, call: Call)
    ensures Tiled(x.engine, st.source, Do(x, st, call).0.source, DoPieces(x, st, call))
  {
    TiledNothing(x.engine, st.source);
    match call
    case CallHasRows => if st.live.Some? { StepKeepsSource(x, st); }
    case CallRead =>
      ReadRowKeepsSource(x, st);
      CloseTiles(x, AddChanges(ReadRow(x, st).0));
    case CallNextResult => AdvanceTiles(x, st);
    case CallClose => CloseTiles(x, st);
  }

  lemma {:induction false} DriveTiles<D(!new)>(x: Context<D>, st: State<D>, calls: seq<Call>)
    ensures Tiled(x.engine, st.source, Drive(x, st, calls).source, DrivePieces(x, st, calls))
    decreases |calls|
  {
    if calls == [] {
      TiledNothing(x.engine, st.source);
    } else {
      var next := Do(x, st, calls[0]).0;
      DoTiles(x, st, calls[0]);
      DriveTiles(x, next, calls[1..]);
      TiledTrans(x.engine, st.source, next.source, Drive(x, next, calls[1..]).source, DoPieces(x, st, calls[0]),
                 DrivePieces(x, next, calls[1..]));
    }
  }

  lemma CreateTiles<D(!new)>(x: Context<D>, src: Source, d: D, n: nat)
    ensures Tiled(x.engine, src, Create(x, src, d, n).0.source, CreatePieces(x, src, d, n))
  {
    var (st, a) := Advance(x, Fields(src, d, n));
    AdvanceTiles(x, Fields(src, d, n));
    if a.Thrown? {
      CloseTiles(x, st);
      TiledTrans(x.engine, src, st.source, Close(x, st).0.source, AdvancePieces(x, Fields(src, d, n)), ClosePieces(x, st));
    }
    assert AdvancePieces(x, Fields(src, d, n)) + [] == AdvancePieces(x, Fields(src, d, n));
  }

  /** Batch progress.  Whatever is called in whatever order, over the text or over prepared
      statements, and whatever fails to compile, to bind or to execute: from its creation to the
      last call the reader passes the statements of its batch one behind the other, without a gap,
      a skip or a repeat, each being the one compiled at the end of the one before it; and its
      position never goes back, and never beyond the text and its terminator, or the list. */
  lemma NoSkipNoRepeat<D(!new)>(x: Context<D>, src: Source, d: D, n: nat, calls: seq<Call>)
    ensures
      var first := Create(x, src, d, n).0;
      Tiled(x.engine, src, Drive(x, first, calls).source, CreatePieces(x, src, d, n) + DrivePieces(x, first, calls))
  {
    var first := Create(x, src, d, n).0;
    CreateTiles(x, src, d, n);
    DriveTiles(x, first, calls);
    TiledTrans(x.engine, src, first.source, Drive(x, first, calls).source,
               CreatePieces(x, src, d, n), DrivePieces(x, first, calls));
  }

  // ---- what the pieces are ----

  /** Over prepared statements the pieces are the statements of the list, from index to index. */
  lemma {:induction false} PiecesAreTheList<D(!new)>(e: Engine<D>, src: Source, pieces: seq<Piece<D>>)
    requires src.Cached? && src.index <= |src.statements| && Chain(e, src, pieces)
    ensures End(src, pieces) == src.index + |pieces| <= |src.statements|
    ensures forall i :: 0 <= i < |pieces| ==> pieces[i].statement == src.statements[src.index + i]
    decreases |pieces|
  {
    if pieces != [] {
      var next := At(src, pieces[0].to);
      PiecesAreTheList(e, next, pieces[1..]);
      assert End(next, pieces[1..]) == End(src, pieces);
      forall i | 0 <= i < |pieces| ensures pieces[i].statement == src.statements[src.index + i] {
        if i > 0 { assert pieces[i] == pieces[1..][i - 1]; }
      }
    }
  }

  /** Over a text that splits in a database, the pieces are the first statements of that split, if
      each of them compiled as it does in that database. */
  lemma {:induction false} PiecesAreTheSplit<D(!new)>(
      e: Engine<D>, text: Sql, offset: nat, d: D, all: seq<Statement>, pieces: seq<Piece<D>>)
    requires Chain(e, Parse(text, offset), pieces) && BatchSplit.Split(e, text, offset, d) == Some(all)
    requires forall i :: 0 <= i < |pieces| ==>
               e.prepare(text, pieces[i].from, pieces[i].db) == e.prepare(text, pieces[i].from, d)
    ensures |pieces| <= |all| && forall i :: 0 <= i < |pieces| ==> pieces[i].statement == all[i]
    decreases |pieces|
  {
    if pieces != [] {
      assert e.prepare(text, offset, pieces[0].db) == e.prepare(text, offset, d);
      forall i | 0 <= i < |pieces[1..]|
        ensures e.prepare(text, pieces[1..][i].from, pieces[1..][i].db) == e.prepare(text, pieces[1..][i].from, d)
      {
        assert pieces[1..][i] == pieces[i + 1];
      }
      PiecesAreTheSplit(e, text, pieces[0].to, d, all[1..], pieces[1..]);
      forall i | 0 <= i < |pieces| ensures pieces[i].statement == all[i] {
        if i > 0 { assert pieces[i] == pieces[1..][i - 1]; }
      }
    }
  }
}
