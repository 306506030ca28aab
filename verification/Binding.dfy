/** How a command's parameter collection is bound to the parameters of one SQL statement. */
module Binding {
  import opened Options

  /** A value in one of the storage classes of SQLite. */
  datatype Value = Null | Integer(i: int) | Real(r: real) | Text(t: string) | Blob(b: seq<bv8>)

  /** An entry of the parameter collection; `value` is None while `IsValueSet` is false. */
  datatype Parameter = Parameter(name: string, value: Option<Value>)

  datatype Error = ValueNotSet | NameNotSet | AmbiguousName | Missing(indices: seq<nat>)

  datatype Resolution = At(index: nat) | NoMatch | Fails(error: Error)

  datatype Result<+T> = Ok(value: T) | Err(error: Error)

  /** The values bound so far, one slot for each SQL parameter; an unbound one reads as NULL. */
  type Slots = seq<Option<Value>>

  /** `sqlite3_bind_parameter_index`, counted from 0: the first parameter with that name.  `names`
      lists the names of the statement's parameters, the empty string for a nameless one. */
  function IndexOf(names: seq<string>, name: string): (r: Option<nat>)
    ensures r.Some? ==> r.value < |names| && names[r.value] == name && name !in names[..r.value]
    ensures r.None? <==> name !in names
  {
    if names == [] then None
    else if names[0] == name then Some(0)
    else
      match IndexOf(names[1..], name)
      case None => None
      case Some(k) => assert names[..k + 1] == [names[0]] + names[1..][..k]; Some(k + 1)
  }

  function CoreName(name: string): string
    requires name != ""
  {
    if name[0] == '@' || name[0] == ':' || name[0] == '$' then name[1..] else name
  }

  function Matched(r: Option<nat>): nat { if r.Some? then 1 else 0 }

  /** `ResolveParameterIndex`. */
  function Resolve(names: seq<string>, name: string, ordinal: nat): (r: Resolution)
    ensures r.At? ==> r.index < |names|
  {
    if name == "" then
      if ordinal < |names| && names[ordinal] == "" then At(ordinal) else Fails(NameNotSet)
    else
      match IndexOf(names, name)
      case Some(k) => At(k)
      case None =>
        var core := CoreName(name);
        var a, b, c := IndexOf(names, "@" + core), IndexOf(names, ":" + core), IndexOf(names, "$" + core);
        if Matched(a) + Matched(b) + Matched(c) > 1 then Fails(AmbiguousName)
        else if c.Some? then At(c.value)
        else if b.Some? then At(b.value)
        else if a.Some? then At(a.value)
        else NoMatch
  }

  /** What the loop of `BindParameters` makes of entry `ordinal`. */
  function BindOne(names: seq<string>, p: Parameter, ordinal: nat, slots: Slots): (r: Result<Slots>)
    requires |slots| == |names|
    ensures r.Ok? ==> |r.value| == |names|
  {
    if p.value.None? then Err(ValueNotSet)
    else
      match Resolve(names, p.name, ordinal)
      case Fails(e) => Err(e)
      case NoMatch => Ok(slots)
      case At(k) => Ok(slots[k := p.value])
  }

  function Unbound(names: seq<string>): Slots {
    seq(|names|, _ => None)
  }

  /** The loop of `BindParameters` over the first `n` entries. */
  function BindFirst(names: seq<string>, ps: seq<Parameter>, n: nat): (r: Result<Slots>)
    requires n <= |ps|
    ensures r.Ok? ==> |r.value| == |names|
  {
    if n == 0 then Ok(Unbound(names))
    else
      match BindFirst(names, ps, n - 1)
      case Err(e) => Err(e)
      case Ok(slots) => BindOne(names, ps[n - 1], n - 1, slots)
  }

  /** The indices still unbound, from `k` on, in order. */
  function Holes(slots: Slots, k: nat): seq<nat>
    requires k <= |slots|
    decreases |slots| - k
  {
    if k == |slots| then []
    else if slots[k].None? then [k] + Holes(slots, k + 1)
    else Holes(slots, k + 1)
  }

  /** `BindParameters`: `strict` is the check for missing parameters, off for EXPLAIN. */
  function Bind(names: seq<string>, ps: seq<Parameter>, strict: bool): (r: Result<Slots>)
    ensures r.Ok? ==> |r.value| == |names|
  {
    match BindFirst(names, ps, |ps|)
    case Err(e) => Err(e)
    case Ok(slots) => if strict && Holes(slots, 0) != [] then Err(Missing(Holes(slots, 0))) else Ok(slots)
  }

  // ---- which SQL parameter a name means ----

  /** The names in SQL a bare name can stand for. */
  function Prefixed(core: string): set<string> { {"@" + core, ":" + core, "$" + core} }

  /** `core` is the name without its prefix, if it has one. */
  predicate Bare(name: string, core: string) {
    name in Prefixed(core) || (name == core && core != "" && core[0] !in {'@', ':', '$'})
  }

  /** SQL parameter `k` is the first of that name. */
  predicate IsFirst(names: seq<string>, name: string, k: nat) {
    k < |names| && names[k] == name && forall j :: 0 <= j < k ==> names[j] != name
  }

  lemma BareIsCore(name: string, core: string)
    requires Bare(name, core)
    ensures name != "" && CoreName(name) == core
  {
    if name in Prefixed(core) { assert name[1..] == core; }
  }

  lemma FirstIsIndex(names: seq<string>, name: string, k: nat)
    requires IndexOf(names, name) == Some(k)
    ensures IsFirst(names, name, k)
  {
    forall j | 0 <= j < k ensures names[j] != name { assert names[j] == names[..k][j]; }
  }

  lemma PrefixesDiffer(core: string)
    ensures "@" + core != ":" + core && "@" + core != "$" + core && ":" + core != "$" + core
  {
    assert ("@" + core)[0] == '@' && (":" + core)[0] == ':' && ("$" + core)[0] == '$';
  }

  function Alone(names: seq<string>, name: string): set<string> { if name in names then {name} else {} }

  lemma MatchesSplit(names: seq<string>, core: string)
    ensures
      var matches := set p | p in Prefixed(core) && p in names;
      var a, b, c := Alone(names, "@" + core), Alone(names, ":" + core), Alone(names, "$" + core);
      matches == a + b + c && |matches| == |a| + |b| + |c|
  {
    var a, b, c := Alone(names, "@" + core), Alone(names, ":" + core), Alone(names, "$" + core);
    PrefixesDiffer(core);
    assert (set p | p in Prefixed(core) && p in names) == a + b + c;
    assert a !! b && (a + b) !! c;
  }

  /** Where the name itself does not occur. */
  lemma ResolveByCore(names: seq<string>, name: string, core: string, ordinal: nat)
    requires Bare(name, core) && name !in names
    ensures
      var r := Resolve(names, name, ordinal);
      var a, b, c := Alone(names, "@" + core), Alone(names, ":" + core), Alone(names, "$" + core);
      var n := |a| + |b| + |c|;
      && (r.At? <==> n == 1) && (r == Fails(AmbiguousName) <==> n > 1) && (r == NoMatch <==> n == 0)
      && (r.At? ==> names[r.index] in Prefixed(core) && IsFirst(names, names[r.index], r.index))
  {
    BareIsCore(name, core);
    var r := Resolve(names, name, ordinal);
    if r.At? { FirstIsIndex(names, names[r.index], r.index); }
  }

  /** Which SQL parameter an entry means.  A name that occurs in the statement means its first
      occurrence; otherwise its bare name is tried with each prefix: the one that occurs is meant, more
      than one are ambiguous, and none is no parameter of this statement.  A nameless entry means the
      SQL parameter at its own place, exactly if that is nameless as well. */
  lemma NamesMean(names: seq<string>, name: string, core: string, ordinal: nat)
    requires name == "" || Bare(name, core)
    ensures
      var r, matches := Resolve(names, name, ordinal), set p | p in Prefixed(core) && p in names;
      if name == "" then r == if ordinal < |names| && names[ordinal] == "" then At(ordinal) else Fails(NameNotSet)
      else if name in names then r.At? && IsFirst(names, name, r.index)
      else
        && (|matches| == 1 <==> r.At?) && (|matches| > 1 <==> r == Fails(AmbiguousName)) && (|matches| == 0 <==> r == NoMatch)
        && (r.At? ==> names[r.index] in matches && IsFirst(names, names[r.index], r.index))
  {
    if name != "" {
      if name in names {
        FirstIsIndex(names, name, IndexOf(names, name).value);
      } else {
        ResolveByCore(names, name, core, ordinal);
        MatchesSplit(names, core);
      }
    }
  }

  /** Every name has a bare name, and only one. */
  lemma BareIsUnique(name: string) returns (core: string)
    requires name != ""
    ensures Bare(name, core) && forall other: string :: Bare(name, other) ==> other == core
  {
    core := CoreName(name);
    if name[0] in {'@', ':', '$'} { assert name == [name[0]] + core; }
    forall other: string | Bare(name, other) ensures other == core { BareIsCore(name, other); }
  }

  // ---- what a successful binding means ----

  /** Entry `i` is bound to SQL parameter `k`. */
  predicate Hits(names: seq<string>, ps: seq<Parameter>, i: nat, k: nat)
    requires i < |ps|
  {
    Resolve(names, ps[i].name, i) == At(k)
  }

  /** Entry `i` is the last of the first `n` that is bound to SQL parameter `k`. */
  ghost predicate LastHit(names: seq<string>, ps: seq<Parameter>, n: nat, i: nat, k: nat)
    requires n <= |ps|
  {
    i < n && Hits(names, ps, i, k) && forall j: nat :: i < j < n ==> !Hits(names, ps, j, k)
  }

  /** Slot `k` after the first `n` entries: the value of the last one that hits it, if any does. */
  ghost predicate SlotTells(names: seq<string>, ps: seq<Parameter>, n: nat, k: nat, slot: Option<Value>)
    requires n <= |ps|
  {
    && (forall i: nat :: LastHit(names, ps, n, i, k) ==> slot == ps[i].value)
    && (slot.None? <==> forall i: nat :: i < n ==> !Hits(names, ps, i, k))
  }

  lemma HitTells(names: seq<string>, ps: seq<Parameter>, n: nat, k: nat)
    requires 0 < n <= |ps| && Hits(names, ps, n - 1, k) && ps[n - 1].value.Some?
    ensures SlotTells(names, ps, n, k, ps[n - 1].value)
  {
  }

  lemma MissTells(names: seq<string>, ps: seq<Parameter>, n: nat, k: nat, slot: Option<Value>)
    requires 0 < n <= |ps| && !Hits(names, ps, n - 1, k) && SlotTells(names, ps, n - 1, k, slot)
    ensures SlotTells(names, ps, n, k, slot)
  {
    forall i: nat | LastHit(names, ps, n, i, k) ensures slot == ps[i].value {
      assert LastHit(names, ps, n - 1, i, k);
    }
  }

  lemma {:induction false} BindFirstLastWins(names: seq<string>, ps: seq<Parameter>, n: nat, k: nat)
    requires n <= |ps| && k < |names| && BindFirst(names, ps, n).Ok?
    ensures SlotTells(names, ps, n, k, BindFirst(names, ps, n).value[k])
  {
    if n > 0 {
      BindFirstLastWins(names, ps, n - 1, k);
      if Hits(names, ps, n - 1, k) {
        HitTells(names, ps, n, k);
      } else {
        MissTells(names, ps, n, k, BindFirst(names, ps, n - 1).value[k]);
      }
    }
  }

  lemma {:induction false} HolesAreUnbound(slots: Slots, k: nat)
    requires k <= |slots|
    ensures forall j: nat :: j in Holes(slots, k) <==> k <= j < |slots| && slots[j].None?
    ensures forall a, b :: 0 <= a < b < |Holes(slots, k)| ==> Holes(slots, k)[a] < Holes(slots, k)[b]
    decreases |slots| - k
  {
    if k < |slots| {
      HolesAreUnbound(slots, k + 1);
      var rest := Holes(slots, k + 1);
      assert forall b :: 0 <= b < |rest| ==> rest[b] in rest;
    }
  }

  /** Binding completeness.  When `BindParameters` returns, a SQL parameter holds the value of the
      last entry that resolves to it, and is unbound if none does; with the check on, none is
      unbound.  When it reports missing parameters, they are exactly the ones no entry resolves
      to, in order. */
  lemma BindingComplete(names: seq<string>, ps: seq<Parameter>, strict: bool, k: nat)
    requires k < |names|
    ensures
      var r := Bind(names, ps, strict);
      && (r.Ok? ==>
            && (forall i: nat :: LastHit(names, ps, |ps|, i, k) ==> r.value[k] == ps[i].value)
            && (r.value[k].None? <==> forall i: nat :: i < |ps| ==> !Hits(names, ps, i, k))
            && (strict ==> r.value[k].Some?))
      && (r.Err? && r.error.Missing? && BindFirst(names, ps, |ps|).Ok? ==>
            && strict
            && (k in r.error.indices <==> forall i: nat :: i < |ps| ==> !Hits(names, ps, i, k))
            && forall a, b :: 0 <= a < b < |r.error.indices| ==> r.error.indices[a] < r.error.indices[b])
  {
    if BindFirst(names, ps, |ps|).Ok? {
      BindFirstLastWins(names, ps, |ps|, k);
      HolesAreUnbound(BindFirst(names, ps, |ps|).value, 0);
    }
  }

  /** The check can only refuse: what it lets pass is bound as without it. */
  lemma CheckOnlyRefuses(names: seq<string>, ps: seq<Parameter>)
    requires Bind(names, ps, true).Ok?
    ensures Bind(names, ps, false) == Bind(names, ps, true)
  {
  }

  // ---- what is refused ----

  /** Entry `i` can be bound, or is passed over because the statement has no such parameter. */
  predicate Acceptable(names: seq<string>, ps: seq<Parameter>, i: nat)
    requires i < |ps|
  {
    ps[i].value.Some? && !Resolve(names, ps[i].name, i).Fails?
  }

  lemma {:induction false} AcceptedUpTo(names: seq<string>, ps: seq<Parameter>, n: nat)
    requires n <= |ps|
    ensures BindFirst(names, ps, n).Ok? <==> forall i: nat :: i < n ==> Acceptable(names, ps, i)
  {
    if n > 0 {
      AcceptedUpTo(names, ps, n - 1);
      assert (forall i: nat :: i < n ==> Acceptable(names, ps, i)) <==>
        (forall i: nat :: i < n - 1 ==> Acceptable(names, ps, i)) && Acceptable(names, ps, n - 1);
    }
  }

  lemma {:induction false} StopsAt(names: seq<string>, ps: seq<Parameter>, i: nat, n: nat)
    requires i < n <= |ps| && !Acceptable(names, ps, i) && forall j: nat :: j < i ==> Acceptable(names, ps, j)
    ensures BindFirst(names, ps, n) ==
      Err(if ps[i].value.None? then ValueNotSet else Resolve(names, ps[i].name, i).error)
  {
    if n == i + 1 { AcceptedUpTo(names, ps, i); } else { StopsAt(names, ps, i, n - 1); }
  }

  /** Binding fails exactly at the first entry that has no value, or a name that is missing or
      ambiguous, and reports that; only if there is none, the missing parameters are reported. */
  lemma FirstErrorIsReported(names: seq<string>, ps: seq<Parameter>, strict: bool)
    ensures
      var r := Bind(names, ps, strict);
      && ((forall i: nat :: i < |ps| ==> Acceptable(names, ps, i)) <==> r.Ok? || r.error.Missing?)
      && forall i: nat :: i < |ps| && !Acceptable(names, ps, i) && (forall j: nat :: j < i ==> Acceptable(names, ps, j)) ==>
           r == Err(if ps[i].value.None? then ValueNotSet else Resolve(names, ps[i].name, i).error)
  {
    AcceptedUpTo(names, ps, |ps|);
    NeverMissing(names, ps, |ps|);
    forall i: nat | i < |ps| && !Acceptable(names, ps, i) && (forall j: nat :: j < i ==> Acceptable(names, ps, j))
      ensures Bind(names, ps, strict) == Err(if ps[i].value.None? then ValueNotSet else Resolve(names, ps[i].name, i).error)
    {
      StopsAt(names, ps, i, |ps|);
    }
  }

  // ---- the order of the collection ----

  predicate AllNamed(ps: seq<Parameter>) {
    forall p :: p in ps ==> p.name != ""
  }

  /** No two different entries are bound to the same SQL parameter. */
  ghost predicate Unambiguous(names: seq<string>, ps: seq<Parameter>) {
    forall p, q | p in ps && q in ps && Resolve(names, p.name, 0).At? ::
      Resolve(names, p.name, 0) == Resolve(names, q.name, 0) ==> p == q
  }

  predicate Bindable(names: seq<string>, p: Parameter) {
    p.value.Some? && !Resolve(names, p.name, 0).Fails?
  }

  lemma ResolveNamed(names: seq<string>, name: string, i: nat)
    requires name != ""
    ensures Resolve(names, name, i) == Resolve(names, name, 0)
  {
  }

  lemma {:induction false} BindFirstSucceeds(names: seq<string>, ps: seq<Parameter>, n: nat)
    requires n <= |ps| && AllNamed(ps)
    ensures BindFirst(names, ps, n).Ok? <==> forall i: nat :: i < n ==> Bindable(names, ps[i])
  {
    if n > 0 {
      BindFirstSucceeds(names, ps, n - 1);
      ResolveNamed(names, ps[n - 1].name, n - 1);
    }
  }

  /** With named, unambiguous entries a SQL parameter is bound exactly to the entry that names it. */
  lemma BoundByName(names: seq<string>, ps: seq<Parameter>, k: nat)
    requires AllNamed(ps) && Unambiguous(names, ps) && k < |names| && BindFirst(names, ps, |ps|).Ok?
    ensures
      var slot := BindFirst(names, ps, |ps|).value[k];
      && (slot.None? <==> forall p :: p in ps ==> Resolve(names, p.name, 0) != At(k))
      && forall p :: p in ps && Resolve(names, p.name, 0) == At(k) ==> slot == p.value
  {
    var slot := BindFirst(names, ps, |ps|).value[k];
    BindFirstLastWins(names, ps, |ps|, k);
    forall i: nat | i < |ps| ensures Hits(names, ps, i, k) <==> Resolve(names, ps[i].name, 0) == At(k) {
      assert ps[i] in ps;
      ResolveNamed(names, ps[i].name, i);
    }
    if slot.None? {
      forall p | p in ps ensures Resolve(names, p.name, 0) != At(k) {
        var i: nat :| i < |ps| && ps[i] == p;
        assert !Hits(names, ps, i, k);
      }
    } else {
      var j: nat :| j < |ps| && Hits(names, ps, j, k);
      var i := LastIndex(names, ps, |ps|, k, j);
      assert ps[i] in ps && LastHit(names, ps, |ps|, i, k);
    }
  }

  lemma LastHitStays(names: seq<string>, ps: seq<Parameter>, n: nat, i: nat, k: nat)
    requires 0 < n <= |ps| && LastHit(names, ps, n - 1, i, k) && !Hits(names, ps, n - 1, k)
    ensures LastHit(names, ps, n, i, k)
  {
  }

  lemma {:induction false} LastIndex(names: seq<string>, ps: seq<Parameter>, n: nat, k: nat, j: nat) returns (i: nat)
    requires j < n <= |ps| && Hits(names, ps, j, k)
    ensures LastHit(names, ps, n, i, k)
  {
    if Hits(names, ps, n - 1, k) {
      i := n - 1;
    } else {
      i := LastIndex(names, ps, n - 1, k, j);
      LastHitStays(names, ps, n, i, k);
    }
  }

  /** For named, unambiguous entries the order of the collection does not matter. */
  lemma OrderDoesNotMatter(names: seq<string>, ps: seq<Parameter>, qs: seq<Parameter>, strict: bool)
    requires multiset(ps) == multiset(qs) && AllNamed(ps) && Unambiguous(names, ps)
    requires Bind(names, ps, strict).Ok? || Bind(names, ps, strict).error.Missing?
    ensures Bind(names, qs, strict) == Bind(names, ps, strict)
  {
    forall p ensures p in ps <==> p in qs {
      assert p in ps <==> p in multiset(ps);
      assert p in qs <==> p in multiset(qs);
    }
    NeverMissing(names, ps, |ps|);
    BindFirstSucceeds(names, ps, |ps|);
    BindFirstSucceeds(names, qs, |qs|);
    forall i: nat | i < |qs| ensures Bindable(names, qs[i]) {
      assert qs[i] in ps;
      var j: nat :| j < |ps| && ps[j] == qs[i];
    }
    var a, b := BindFirst(names, ps, |ps|).value, BindFirst(names, qs, |qs|).value;
    forall k: nat | k < |names| ensures a[k] == b[k] {
      BoundByName(names, ps, k);
      BoundByName(names, qs, k);
      if a[k].Some? {
        var p :| p in ps && Resolve(names, p.name, 0) == At(k);
        assert p in qs;
      }
    }
    assert a == b;
  }

  /** The loop itself never reports a missing parameter. */
  lemma {:induction false} NeverMissing(names: seq<string>, ps: seq<Parameter>, n: nat)
    requires n <= |ps|
    ensures BindFirst(names, ps, n).Err? ==> !BindFirst(names, ps, n).error.Missing?
  {
    if n > 0 { NeverMissing(names, ps, n - 1); }
  }
}
