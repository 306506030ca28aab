/** The writer gate: one holder per key, and what keeps two writers apart. */
module WriterGate {
  import opened Options
  import opened Counting
  import opened ConnectionModel

  /** What every call on a connection keeps. */
  predicate Sound(c: Conn) {
    && (c.pc.Waiting? ==> c.open && c.gate.None?)
    && (c.pc.Running? ==> c.open && c.gate.Some?)
    && (!c.pc.Idle? && c.pc.use.TransactionWrite? ==> c.active.Some?)
    && (!c.pc.Idle? && c.pc.use.AutocommitWrite? ==> c.active.None?)
    && (!c.open ==> c.active.None? && !c.engine)
    && (c.active.Some? ==> c.active.value < |c.transactions| && !c.transactions[c.active.value].completed)
    && (forall t :: 0 <= t < |c.transactions| ==>
          c.transactions[t].ends <= 1 && (c.transactions[t].ends == 1 ==> c.transactions[t].completed))
  }

  /** A call takes the semaphore only of its own key and without a gate, and releases only the one
      whose releaser it holds. */
  predicate Honest(c: Conn, next: Conn, effect: Effect) {
    match effect
    case Still => next.gate == c.gate
    case Take(k) => c.gate == None && next.gate == Some(k) && k == c.key
    case Release(k) => c.gate == Some(k) && next.gate == None
  }

  lemma ActIdleHonest(c: Conn, a: Action)
    requires Sound(c) && c.pc.Idle?
    ensures Honest(c, ActIdle(c, a).0, ActIdle(c, a).1)
  {
  }

  lemma EndSound(c: Conn, t: nat, ok: bool, left: bool)
    requires Sound(c) && c.pc.Idle? && t < |c.transactions|
    ensures Sound(EndTransaction(c, t, ok, left).0) && Sound(DisposeTransaction(c, t, ok, left).0)
  {
  }

  lemma ActIdleSound(c: Conn, a: Action)
    requires Sound(c) && c.pc.Idle?
    ensures Sound(ActIdle(c, a).0) && Honest(c, ActIdle(c, a).0, ActIdle(c, a).1)
  {
    ActIdleHonest(c, a);
    match a
    case End(t, ok, left) => if t < |c.transactions| { EndSound(c, t, ok, left); }
    case Dispose(t, ok, left) => if t < |c.transactions| { EndSound(c, t, ok, left); }
    case _ =>
  }

  lemma ActSound(c: Conn, a: Action)
    requires Sound(c)
    ensures Sound(Act(c, a).0) && Honest(c, Act(c, a).0, Act(c, a).1)
  {
    if !a.Enter? && !a.Finish? && !a.EngineRollsBack? && c.pc.Idle? { ActIdleSound(c, a); }
  }

  // ---- conservation ----

  function Holds(c: Conn, k: Key): nat { if c.gate == Some(k) then 1 else 0 }

  function Holding(conns: seq<Conn>, k: Key): seq<nat> {
    seq(|conns|, i requires 0 <= i < |conns| => Holds(conns[i], k))
  }

  /** For every key: permits and undisposed releasers together are one. */
  ghost predicate Conserved(s: System) {
    && (forall i :: 0 <= i < |s.conns| ==> Sound(s.conns[i]))
    && forall k: Key :: Permits(s, k) + Sum(Holding(s.conns, k)) == 1
  }

  lemma HoldingUpdate(conns: seq<Conn>, i: nat, c: Conn, k: Key)
    requires i < |conns|
    ensures Holds(conns[i], k) <= Sum(Holding(conns, k))
    ensures Sum(Holding(conns[i := c], k)) == Sum(Holding(conns, k)) - Holds(conns[i], k) + Holds(c, k)
  {
    assert Holding(conns[i := c], k) == Holding(conns, k)[i := Holds(c, k)];
    SumUpdate(Holding(conns, k), i, Holds(c, k));
  }

  lemma StepConserves(s: System, e: Event)
    requires Conserved(s)
    ensures Conserved(Step(s, e))
  {
    if e.i < |s.conns| {
      var (c, effect) := Act(s.conns[e.i], e.action);
      ActSound(s.conns[e.i], e.action);
      forall k: Key ensures Permits(Step(s, e), k) + Sum(Holding(Step(s, e).conns, k)) == 1 {
        HoldingUpdate(s.conns, e.i, c, k);
      }
    }
  }

  lemma {:induction false} RunConserves(s: System, events: seq<Event>)
    requires Conserved(s)
    ensures Conserved(Run(s, events))
    decreases |events|
  {
    if events != [] {
      StepConserves(s, events[0]);
      RunConserves(Step(s, events[0]), events[1..]);
    }
  }

  lemma StartConserved(n: nat)
    ensures Conserved(Start(n))
  {
    forall k: Key ensures Sum(Holding(Start(n).conns, k)) == 0 { SumZero(Holding(Start(n).conns, k)); }
  }

  /** Gate conservation.  In every run of any connections, for every key the permits of its
      semaphore and the undisposed releasers are one together; so no semaphore is released beyond
      its single permit, and no two connections hold the gate of the same key. */
  lemma GateConservation(n: nat, events: seq<Event>, k: Key)
    ensures
      var s := Run(Start(n), events);
      && Permits(s, k) + Sum(Holding(s.conns, k)) == 1
      && (forall e: Event :: e.i < |s.conns| && Act(s.conns[e.i], e.action).1 == Release(k) ==> Permits(s, k) == 0)
      && (forall i, j :: 0 <= i < |s.conns| && 0 <= j < |s.conns| && i != j && s.conns[i].gate == Some(k) ==>
            s.conns[j].gate != Some(k))
  {
    var s := Run(Start(n), events);
    StartConserved(n);
    RunConserves(Start(n), events);
    forall e: Event | e.i < |s.conns| && Act(s.conns[e.i], e.action).1 == Release(k) ensures Permits(s, k) == 0 {
      ActSound(s.conns[e.i], e.action);
      HoldingUpdate(s.conns, e.i, s.conns[e.i], k);
    }
    forall i, j | 0 <= i < |s.conns| && 0 <= j < |s.conns| && i != j && s.conns[i].gate == Some(k)
      ensures s.conns[j].gate != Some(k)
    {
      SumOfTwo(Holding(s.conns, k), i, j);
    }
  }

  // ---- two writers ----

  /** The connection string, or with it the key, is changed while the gate of the old key is held:
      a pooled connection was closed with the gate. */
  predicate Rekeys(c: Conn, a: Action) {
    c.gate.Some? && Act(c, a).0.key != c.key
  }

  ghost predicate KeepsKeys(s: System, events: seq<Event>)
    decreases |events|
  {
    events == [] ||
      ((events[0].i < |s.conns| ==> !Rekeys(s.conns[events[0].i], events[0].action))
       && KeepsKeys(Step(s, events[0]), events[1..]))
  }

  /** Whoever holds a gate holds the one of its own key. */
  ghost predicate OwnGates(s: System) {
    forall i :: 0 <= i < |s.conns| && s.conns[i].gate.Some? ==> s.conns[i].gate == Some(s.conns[i].key)
  }

  lemma ActOwnGate(c: Conn, a: Action)
    requires Sound(c) && !Rekeys(c, a) && (c.gate.Some? ==> c.gate == Some(c.key))
    ensures var next := Act(c, a).0; next.gate.Some? ==> next.gate == Some(next.key)
  {
    ActSound(c, a);
  }

  lemma {:induction false} RunKeepsOwnGates(s: System, events: seq<Event>)
    requires Conserved(s) && OwnGates(s) && KeepsKeys(s, events)
    ensures OwnGates(Run(s, events))
    decreases |events|
  {
    if events != [] {
      StepConserves(s, events[0]);
      if events[0].i < |s.conns| { ActOwnGate(s.conns[events[0].i], events[0].action); }
      RunKeepsOwnGates(Step(s, events[0]), events[1..]);
    }
  }

  /** Two different connections with the same key are executing under the gate. */
  ghost predicate TwoIn(s: System, i: nat, j: nat) {
    && i < |s.conns| && j < |s.conns| && i != j && s.conns[i].key == s.conns[j].key
    && s.conns[i].pc.Running? && s.conns[j].pc.Running?
  }

  /** Writer exclusion.  In every run in which no connection changes its key while it holds a gate,
      no two connections with the same key step a writing statement, or do maintenance, at once. */
  lemma WriterExclusion(n: nat, events: seq<Event>, i: nat, j: nat)
    requires KeepsKeys(Start(n), events)
    ensures !TwoIn(Run(Start(n), events), i, j)
  {
    var s := Run(Start(n), events);
    StartConserved(n);
    RunConserves(Start(n), events);
    RunKeepsOwnGates(Start(n), events);
    if i < |s.conns| { GateConservation(n, events, s.conns[i].key); }
  }

  lemma RunThree(s: System, a: Event, b: Event, c: Event)
    ensures Run(s, [a, b, c]) == Step(Step(Step(s, a), b), c)
  {
    assert [a, b, c][1..] == [b, c] && [b, c][1..] == [c];
    assert Run(Step(Step(s, a), b), [c]) == Run(Step(Step(Step(s, a), b), c), []);
    assert Run(Step(s, a), [b, c]) == Run(Step(Step(s, a), b), [c]);
  }

  lemma {:induction false} RunAppend(s: System, a: seq<Event>, b: seq<Event>)
    ensures Run(s, a + b) == Run(Run(s, a), b)
    decreases |a|
  {
    if a == [] {
      assert a + b == b;
    } else {
      assert (a + b)[1..] == a[1..] + b;
      RunAppend(Step(s, a[0]), a[1..], b);
    }
  }

  lemma EnterGetsIn(s: System, j: nat)
    requires j < |s.conns| && (s.conns[j].pc.Running? || (s.conns[j].pc.Waiting? && Permits(s, s.conns[j].key) > 0))
    ensures
      var end := Step(s, Event(j, Enter));
      && |end.conns| == |s.conns| && end.conns[j].pc.Running? && end.conns[j].key == s.conns[j].key
      && forall i :: 0 <= i < |s.conns| && i != j ==> end.conns[i] == s.conns[i]
  {
  }

  /** A connection that has a gate, and another one that has one or finds a permit. */
  lemma BothGetIn(s: System, i: nat, j: nat)
    requires Conserved(s) && i < |s.conns| && j < |s.conns| && i != j && s.conns[i].key == s.conns[j].key
    requires s.conns[i].open && s.conns[i].pc.Idle? && s.conns[i].gate.Some?
    requires s.conns[j].open && s.conns[j].pc.Idle? && (s.conns[j].gate.Some? || Permits(s, s.conns[j].key) > 0)
    ensures TwoIn(Run(s, [Event(i, StartWrite), Event(j, StartWrite), Event(j, Enter)]), i, j)
  {
    var s1 := Step(s, Event(i, StartWrite));
    assert s1.permits == s.permits && s1.conns[i].pc.Running? && s1.conns[j] == s.conns[j];
    var s2 := Step(s1, Event(j, StartWrite));
    assert s2.permits == s.permits && s2.conns[i] == s1.conns[i] && s2.conns[j].key == s.conns[j].key;
    assert s2.conns[j].pc.Running? || (s2.conns[j].pc.Waiting? && Permits(s2, s2.conns[j].key) > 0);
    EnterGetsIn(s2, j);
    RunThree(s, Event(i, StartWrite), Event(j, StartWrite), Event(j, Enter));
  }

  // ---- exactly the foreign gates ----

  /** The gate a connection holds is not the one of its key. */
  predicate Foreign(c: Conn) {
    c.gate.Some? && c.gate.value != c.key
  }

  lemma {:induction false} OwnStays(s: System, events: seq<Event>, i: nat)
    requires Conserved(s) && KeepsKeys(s, events) && i < |s.conns| && !Foreign(s.conns[i])
    ensures i < |Run(s, events).conns| && !Foreign(Run(s, events).conns[i])
    decreases |events|
  {
    if events != [] {
      StepConserves(s, events[0]);
      if events[0].i == i { ActOwnGate(s.conns[i], events[0].action); }
      OwnStays(Step(s, events[0]), events[1..], i);
    }
  }

  /** A call that does not change the key of its connection, or opens it with the key it has. */
  predicate Quiet(s: System, e: Event) {
    e.i < |s.conns| &&
      (e.action.Finish? || e.action.StartMaintenance? || e.action.StartWrite? || e.action.Enter?
       || e.action == Open(s.conns[e.i].key, false))
  }

  lemma {:induction false} QuietKeepsKeys(s: System, events: seq<Event>)
    requires forall e :: e in events ==> Quiet(s, e)
    ensures KeepsKeys(s, events) && |Run(s, events).conns| == |s.conns|
    ensures forall m :: 0 <= m < |s.conns| ==> Run(s, events).conns[m].key == s.conns[m].key
    decreases |events|
  {
    if events != [] {
      assert events[0] in events;
      var next := Step(s, events[0]);
      assert forall m :: 0 <= m < |s.conns| ==> next.conns[m].key == s.conns[m].key;
      forall e | e in events[1..] ensures Quiet(next, e) { assert e in events; }
      QuietKeepsKeys(next, events[1..]);
    }
  }

  lemma StepAlone(s: System, e: Event)
    requires e.i < |s.conns| && !e.action.Enter?
    ensures Step(s, e).conns == s.conns[e.i := Act(s.conns[e.i], e.action).0]
  {
  }

  function LetGo(m: nat, key: Key): seq<Event> {
    [Event(m, Finish(true)), Event(m, Open(key, false)), Event(m, StartMaintenance)] + [Event(m, Finish(true))]
  }

  lemma LetGoConn(c: Conn)
    requires Sound(c)
    ensures Act(Act(Act(Act(c, Finish(true)).0, Open(c.key, false)).0, StartMaintenance).0, Finish(true)).0.gate.None?
  {
  }

  /** Whatever a holder is doing, it can go on so as to release its gate. */
  lemma HolderCanLetGo(s: System, m: nat, k: Key)
    requires Conserved(s) && m < |s.conns| && s.conns[m].gate == Some(k)
    ensures
      var end := Run(s, LetGo(m, s.conns[m].key));
      Conserved(end) && |end.conns| == |s.conns| && Permits(end, k) == 1
      && forall j :: 0 <= j < |s.conns| && j != m ==> end.conns[j] == s.conns[j]
  {
    var c := s.conns[m];
    var e1, e2, e3 := Event(m, Finish(true)), Event(m, Open(c.key, false)), Event(m, StartMaintenance);
    var s3 := Run(s, [e1, e2, e3]);
    RunThree(s, e1, e2, e3);
    StepAlone(s, e1);
    StepAlone(Step(s, e1), e2);
    StepAlone(Step(Step(s, e1), e2), e3);
    StepAlone(s3, e1);
    RunAppend(s, [e1, e2, e3], [e1]);
    assert Run(s3, [e1]) == Run(Step(s3, e1), []);
    RunConserves(s, LetGo(m, c.key));
    LetGoConn(c);
    var end := Step(s3, e1);
    assert end.conns == s.conns[m := end.conns[m]];
    HoldingUpdate(s.conns, m, end.conns[m], k);
  }

  lemma SomebodyHolds(s: System, k: Key) returns (m: nat)
    requires Conserved(s) && Permits(s, k) == 0
    ensures m < |s.conns| && s.conns[m].gate == Some(k)
  {
    if forall m: nat :: m < |s.conns| ==> s.conns[m].gate != Some(k) {
      SumZero(Holding(s.conns, k));
      assert false;
    }
    m :| m < |s.conns| && s.conns[m].gate == Some(k);
  }

  /** A run that leaves the two connections alone and, unless the second one has a gate, a permit for it. */
  lemma MakeRoom(s: System, i: nat, j: nat) returns (events: seq<Event>)
    requires Conserved(s) && i < |s.conns| && j < |s.conns| && i != j && s.conns[i].key == s.conns[j].key && Foreign(s.conns[i])
    ensures forall e :: e in events ==> Quiet(s, e)
    ensures var end := Run(s, events);
      && Conserved(end) && |end.conns| == |s.conns| && end.conns[i] == s.conns[i] && end.conns[j] == s.conns[j]
      && (end.conns[j].gate.Some? || Permits(end, end.conns[j].key) > 0)
  {
    events := [];
    if Permits(s, s.conns[j].key) == 0 && s.conns[j].gate.None? {
      var m := SomebodyHolds(s, s.conns[j].key);
      HolderCanLetGo(s, m, s.conns[j].key);
      events := LetGo(m, s.conns[m].key);
    }
  }

  function OpenBoth(i: nat, j: nat, k: Key): seq<Event> {
    [Event(i, Open(k, false)), Event(j, Open(k, false)), Event(i, Finish(true))]
  }

  lemma OpensBoth(s: System, i: nat, j: nat)
    requires Conserved(s) && i < |s.conns| && j < |s.conns| && i != j && s.conns[i].key == s.conns[j].key
    requires s.conns[i].pc.Idle? && s.conns[j].pc.Idle?
    ensures var end := Run(s, OpenBoth(i, j, s.conns[j].key));
      && Conserved(end) && |end.conns| == |s.conns| && end.permits == s.permits
      && end.conns[i].open && end.conns[i].pc.Idle? && end.conns[i].gate == s.conns[i].gate && end.conns[i].key == s.conns[i].key
      && end.conns[j].open && end.conns[j].pc.Idle? && end.conns[j].gate == s.conns[j].gate && end.conns[j].key == s.conns[j].key
  {
    var opening := OpenBoth(i, j, s.conns[j].key);
    RunThree(s, opening[0], opening[1], opening[2]);
    RunConserves(s, opening);
  }

  lemma QuietAppend(s: System, a: seq<Event>, b: seq<Event>)
    requires (forall e :: e in a ==> Quiet(s, e)) && (forall e :: e in b ==> Quiet(s, e))
    ensures forall e :: e in a + b ==> Quiet(s, e)
  {
  }

  /** Calls after which two connections of one key, of which `i` holds a foreign gate, are both in. */
  lemma ForeignGetsIn(s: System, i: nat, j: nat) returns (events: seq<Event>)
    requires Conserved(s) && i < |s.conns| && j < |s.conns| && i != j && s.conns[i].key == s.conns[j].key
    requires s.conns[i].pc.Idle? && s.conns[j].pc.Idle? && Foreign(s.conns[i])
    ensures KeepsKeys(s, events) && TwoIn(Run(s, events), i, j)
  {
    var room := MakeRoom(s, i, j);
    var s1 := Run(s, room);
    var opening := OpenBoth(i, j, s.conns[j].key);
    OpensBoth(s1, i, j);
    var both := [Event(i, StartWrite), Event(j, StartWrite), Event(j, Enter)];
    BothGetIn(Run(s1, opening), i, j);
    events := room + (opening + both);
    RunAppend(s, room, opening + both);
    RunAppend(s1, opening, both);
    QuietAppend(s, opening, both);
    QuietAppend(s, room, opening + both);
    QuietKeepsKeys(s, events);
  }

  ghost predicate LetsTwoIn(s: System, i: nat, j: nat, events: seq<Event>) {
    KeepsKeys(s, events) && TwoIn(Run(s, events), i, j)
  }

  /** Exactly the foreign gates.  From a state in which two connections of one key are at rest, and
      without anybody changing keys with a gate in hand, both can come to write at once if and only
      if one of them holds the gate of another key. */
  lemma ExactlyForeignGates(s: System, i: nat, j: nat)
    requires Conserved(s) && i < |s.conns| && j < |s.conns| && i != j && s.conns[i].key == s.conns[j].key
    requires s.conns[i].pc.Idle? && s.conns[j].pc.Idle?
    ensures (exists events :: LetsTwoIn(s, i, j, events)) <==> Foreign(s.conns[i]) || Foreign(s.conns[j])
  {
    if Foreign(s.conns[i]) {
      var events := ForeignGetsIn(s, i, j);
      assert LetsTwoIn(s, i, j, events);
    } else if Foreign(s.conns[j]) {
      var events := ForeignGetsIn(s, j, i);
      assert LetsTwoIn(s, i, j, events);
    } else {
      forall events ensures !LetsTwoIn(s, i, j, events) {
        if KeepsKeys(s, events) { OwnGatesExclude(s, i, j, events); }
      }
    }
  }

  lemma OwnGatesExclude(s: System, i: nat, j: nat, events: seq<Event>)
    requires Conserved(s) && i < |s.conns| && j < |s.conns| && i != j && KeepsKeys(s, events)
    requires !Foreign(s.conns[i]) && !Foreign(s.conns[j])
    ensures !TwoIn(Run(s, events), i, j)
  {
    var end := Run(s, events);
    RunConserves(s, events);
    OwnStays(s, events, i);
    OwnStays(s, events, j);
    assert Permits(end, end.conns[i].key) + Sum(Holding(end.conns, end.conns[i].key)) == 1;
    SumOfTwo(Holding(end.conns, end.conns[i].key), i, j);
  }

  /** Such a connection comes about: a write fails, the pooled connection is closed with its gate,
      and opened again with another connection string. */
  const FAILED_WRITE: seq<Event> := [Event(0, StartWrite), Event(0, Enter), Event(0, Finish(false))]
  const REKEYED: seq<Event> := [Event(0, Close), Event(0, SetConnectionString(2, true)), Event(0, Open(2, false))]

  const ONE := FRESH.(key := 1, pooled := true, open := true)
  const TWO := FRESH.(key := 2, pooled := true, open := true)
  const STUCK := TWO.(gate := Some(1))

  lemma FailedWriteRuns()
    ensures Run(System(map[], [ONE, TWO]), FAILED_WRITE) == System(map[1 := 0], [ONE.(gate := Some(1)), TWO])
  {
    var s := System(map[], [ONE, TWO]);
    var a := Step(s, FAILED_WRITE[0]);
    assert a == System(map[], [ONE.(pc := Waiting(AutocommitWrite)), TWO]);
    var b := Step(a, FAILED_WRITE[1]);
    assert b == System(map[1 := 0], [ONE.(gate := Some(1), pc := Running(AutocommitWrite)), TWO]);
    RunThree(s, FAILED_WRITE[0], FAILED_WRITE[1], FAILED_WRITE[2]);
  }

  lemma RekeyRuns()
    ensures Run(System(map[1 := 0], [ONE.(gate := Some(1)), TWO]), REKEYED) == System(map[1 := 0], [STUCK, TWO])
  {
    var s := System(map[1 := 0], [ONE.(gate := Some(1)), TWO]);
    var a := Step(s, REKEYED[0]);
    assert a == System(map[1 := 0], [ONE.(gate := Some(1), open := false), TWO]);
    var b := Step(a, REKEYED[1]);
    assert b == System(map[1 := 0], [ONE.(gate := Some(1), open := false, key := 2), TWO]);
    RunThree(s, REKEYED[0], REKEYED[1], REKEYED[2]);
  }

  const OPENING: seq<Event> :=
    [Event(0, SetConnectionString(1, true)), Event(1, SetConnectionString(2, true)), Event(0, Open(1, false))]

  lemma OpeningRuns()
    ensures Run(Start(2), OPENING + [Event(1, Open(2, false))]) == System(map[], [ONE, TWO])
  {
    var s := Start(2);
    assert s.conns == [FRESH, FRESH];
    var mid := System(map[], [ONE, TWO.(open := false)]);
    RunThree(s, OPENING[0], OPENING[1], OPENING[2]);
    RunAppend(s, OPENING, [Event(1, Open(2, false))]);
    assert Run(mid, [Event(1, Open(2, false))]) == Run(Step(mid, Event(1, Open(2, false))), []);
  }

  const REKEYING: seq<Event> := (OPENING + [Event(1, Open(2, false))]) + (FAILED_WRITE + REKEYED)

  lemma RekeyingRuns()
    ensures Run(Start(2), REKEYING) == System(map[1 := 0], [STUCK, TWO])
  {
    OpeningRuns();
    FailedWriteRuns();
    RekeyRuns();
    RunAppend(Start(2), OPENING + [Event(1, Open(2, false))], FAILED_WRITE + REKEYED);
    RunAppend(System(map[], [ONE, TWO]), FAILED_WRITE, REKEYED);
  }

  /** A run in which two connections of one key are in at once. */
  lemma TwoWriters() returns (events: seq<Event>)
    ensures TwoIn(Run(Start(2), events), 0, 1) && !KeepsKeys(Start(2), events)
  {
    RekeyingRuns();
    StartConserved(2);
    RunConserves(Start(2), REKEYING);
    var more := ForeignGetsIn(Run(Start(2), REKEYING), 0, 1);
    events := REKEYING + more;
    RunAppend(Start(2), REKEYING, more);
    if KeepsKeys(Start(2), events) { WriterExclusion(2, events, 0, 1); }
  }

  // ---- how long a gate is held ----

  ghost predicate NotBy(i: nat, events: seq<Event>) {
    forall e :: e in events ==> e.i != i
  }

  lemma {:induction false} OthersLeaveAlone(s: System, i: nat, events: seq<Event>)
    requires Conserved(s) && i < |s.conns| && NotBy(i, events)
    ensures var end := Run(s, events); Conserved(end) && |end.conns| == |s.conns| && end.conns[i] == s.conns[i]
    decreases |events|
  {
    if events != [] {
      assert events[0] in events;
      StepConserves(s, events[0]);
      OthersLeaveAlone(Step(s, events[0]), i, events[1..]);
    }
  }

  /** Nobody gets through a gate that is held: as long as connection `i`, closed or not, does
      nothing, every other thread that waits for the gate of its releaser waits on. */
  lemma HeldGateBlocks(s: System, i: nat, events: seq<Event>, j: nat)
    requires Conserved(s) && i < |s.conns| && s.conns[i].gate.Some? && NotBy(i, events)
    ensures
      var end := Run(s, events);
      j < |end.conns| && j != i && end.conns[j].pc.Waiting? && end.conns[j].key == s.conns[i].gate.value ==>
        Step(end, Event(j, Enter)) == end
  {
    var end := Run(s, events);
    var k := s.conns[i].gate.value;
    OthersLeaveAlone(s, i, events);
    HoldingUpdate(end.conns, i, end.conns[i], k);
  }

  /** Connection `c` holds gate `k` as long as its transaction `t` is active. */
  predicate Keeps(c: Conn, t: nat, k: Key) {
    && t < |c.transactions|
    && (c.active == Some(t) ==> c.gate == Some(k) && (c.pc.Running? ==> c.pc.use.TransactionWrite?))
  }

  /** A checkpoint or optimization, or a commit that fails, lets go of the gate of a transaction. */
  predicate LetsGo(a: Action) {
    a.StartMaintenance? || (a.End? && !a.ok)
  }

  lemma ActKeeps(c: Conn, a: Action, t: nat, k: Key)
    requires Sound(c) && Keeps(c, t, k) && !LetsGo(a)
    ensures Keeps(Act(c, a).0, t, k)
  {
  }

  /** The gate of a transaction: from its first write until it ends, unless the same connection
      does maintenance or a commit of it fails. */
  lemma {:induction false} TransactionKeepsGate(s: System, i: nat, t: nat, k: Key, events: seq<Event>)
    requires Conserved(s) && i < |s.conns| && Keeps(s.conns[i], t, k)
    requires forall e :: e in events && e.i == i ==> !LetsGo(e.action)
    ensures var end := Run(s, events); i < |end.conns| && Keeps(end.conns[i], t, k)
    decreases |events|
  {
    if events != [] {
      assert events[0] in events;
      StepConserves(s, events[0]);
      if events[0].i == i { ActKeeps(s.conns[i], events[0].action, t, k); }
      TransactionKeepsGate(Step(s, events[0]), i, t, k, events[1..]);
    }
  }

  // ---- the last cause ----

  /** What connection `i` goes through in a run. */
  function Trace(s: System, events: seq<Event>, i: nat): (t: seq<Conn>)
    requires i < |s.conns|
    ensures |t| == |events| + 1 && t[0] == s.conns[i]
    decreases |events|
  {
    [s.conns[i]] + if events == [] then [] else Trace(Step(s, events[0]), events[1..], i)
  }

  lemma {:induction false} TraceEnds(s: System, events: seq<Event>, i: nat)
    requires i < |s.conns|
    ensures |Run(s, events).conns| == |s.conns| && Trace(s, events, i)[|events|] == Run(s, events).conns[i]
    decreases |events|
  {
    if events != [] { TraceEnds(Step(s, events[0]), events[1..], i); }
  }

  /** A condition of a connection, and the calls that bring it about, where it does not hold and the
      connection meets `base`, which every call keeps. */
  ghost predicate Causes(base: Conn -> bool, holds: Conn -> bool, causes: (Conn, Action) -> bool) {
    forall c: Conn, a: Action :: Sound(c) && base(c) ==>
      && base(Act(c, a).0)
      && (!holds(c) ==> (holds(Act(c, a).0) <==> causes(c, a)))
      && (a.Enter? ==> !causes(c, a))
  }

  /** Event `p` is a call on connection `i` that brings the condition about, and from there on it holds. */
  ghost predicate CausedAt(trace: seq<Conn>, events: seq<Event>, i: nat, holds: Conn -> bool, causes: (Conn, Action) -> bool, p: nat)
    requires |trace| == |events| + 1
  {
    && p < |events| && events[p].i == i && causes(trace[p], events[p].action)
    && forall q: nat :: p < q <= |events| ==> holds(trace[q])
  }

  lemma StepOf(s: System, e: Event, i: nat)
    requires i < |s.conns|
    ensures i < |Step(s, e).conns|
    ensures Step(s, e).conns[i] == s.conns[i] || (e.i == i && Step(s, e).conns[i] == Act(s.conns[i], e.action).0)
  {
  }

  lemma CausedLater(trace: seq<Conn>, events: seq<Event>, i: nat, holds: Conn -> bool, causes: (Conn, Action) -> bool, p: nat)
    requires |trace| == |events| + 1 && events != [] && CausedAt(trace[1..], events[1..], i, holds, causes, p)
    ensures CausedAt(trace, events, i, holds, causes, p + 1)
  {
    forall q: nat | p + 1 < q <= |events| ensures holds(trace[q]) { assert trace[q] == trace[1..][q - 1]; }
  }

  /** The condition holds after a run if it held all along, or one of the events brought it about for good. */
  lemma {:induction false} LastCause(s: System, events: seq<Event>, i: nat, base: Conn -> bool, holds: Conn -> bool,
      causes: (Conn, Action) -> bool)
    requires Conserved(s) && i < |s.conns| && base(s.conns[i]) && Causes(base, holds, causes)
    requires holds(Trace(s, events, i)[|events|])
    ensures
      var trace := Trace(s, events, i);
      (forall q :: 0 <= q < |trace| ==> holds(trace[q])) || exists p: nat :: CausedAt(trace, events, i, holds, causes, p)
    decreases |events|
  {
    if events != [] {
      var next := Step(s, events[0]);
      var trace, rest := Trace(s, events, i), Trace(next, events[1..], i);
      StepConserves(s, events[0]);
      StepOf(s, events[0], i);
      assert Sound(s.conns[i]) && trace[1..] == rest;
      LastCause(next, events[1..], i, base, holds, causes);
      if exists p: nat :: CausedAt(rest, events[1..], i, holds, causes, p) {
        var p: nat :| CausedAt(rest, events[1..], i, holds, causes, p);
        CausedLater(trace, events, i, holds, causes, p);
      } else if !holds(s.conns[i]) {
        assert rest[0] == next.conns[i];
        assert CausedAt(trace, events, i, holds, causes, 0);
      }
    }
  }

  // ---- a gate in hand at rest ----

  /** At rest, outside a transaction, and with the gate: no thread of the same key can write. */
  predicate Stranded(c: Conn) {
    c.pc.Idle? && c.active.None? && c.gate.Some?
  }

  /** A write outside a transaction, or a checkpoint or optimization, fails; a pooled connection is
      closed with the gate of its transaction; or a transaction with the gate is unregistered
      without being committed, rolled back or disposed of, because the engine has left it. */
  predicate Strands(c: Conn, a: Action) {
    match a
    case Finish(ok) => c.pc.Running? && !ok && c.active.None?
    case Close => c.pc.Idle? && c.open && c.pooled && c.gate.Some? && c.active.Some?
    case ReadTransaction => LeftByEngine(c)
    case ReadConnection(t) => LeftByEngine(c) && t < |c.transactions| && !c.transactions[t].completed
    case End(t, _, _) => LeftByEngine(c) && t < |c.transactions| && !c.transactions[t].completed
    case _ => false
  }

  predicate LeftByEngine(c: Conn) {
    c.pc.Idle? && c.open && !c.engine && c.active.Some? && c.gate.Some?
  }

  lemma StrandsExactly()
    ensures Causes(_ => true, Stranded, Strands)
  {
    forall c: Conn, a: Action | Sound(c) && !Stranded(c) ensures Stranded(Act(c, a).0) <==> Strands(c, a) {
      StrandedStep(c, a);
    }
  }

  ghost predicate StrandedBy(s: System, events: seq<Event>, i: nat, p: nat)
    requires i < |s.conns|
  {
    CausedAt(Trace(s, events, i), events, i, Stranded, Strands, p)
  }

  lemma StrandedStep(c: Conn, a: Action)
    requires Sound(c) && !Stranded(c)
    ensures Stranded(Act(c, a).0) <==> Strands(c, a)
  {
  }

  /** What keeps the gate.  In every run of any connections, one of them is at rest outside a
      transaction with the gate in hand, which then blocks every other writer of its key, if and only
      if one of the listed calls has put it there and it has been so ever since. */
  lemma WhatKeepsTheGate(n: nat, events: seq<Event>, i: nat)
    requires i < n
    ensures |Run(Start(n), events).conns| == n
    ensures Stranded(Run(Start(n), events).conns[i]) <==> exists p: nat :: StrandedBy(Start(n), events, i, p)
  {
    StartConserved(n);
    StrandsExactly();
    TraceEnds(Start(n), events, i);
    if Stranded(Run(Start(n), events).conns[i]) {
      LastCause(Start(n), events, i, _ => true, Stranded, Strands);
      assert !Stranded(Trace(Start(n), events, i)[0]);
      var p: nat :| CausedAt(Trace(Start(n), events, i), events, i, Stranded, Strands, p);
      assert StrandedBy(Start(n), events, i, p);
    }
  }

  // ---- a transaction without its gate ----

  /** Transaction `t` is registered, and its connection is without the gate. */
  predicate WithoutGate(c: Conn, t: nat) {
    c.active == Some(t) && c.gate.None?
  }

  /** A checkpoint or optimization of the same connection ends, or a commit or rollback fails. */
  predicate TakesGate(c: Conn, a: Action, t: nat) {
    c.active == Some(t) &&
      match a
      case Finish(ok) => ok && c.pc == Running(Maintenance)
      case End(u, ok, _) =>
        c.pc.Idle? && !ok && c.open && c.engine && c.gate.Some? && u < |c.transactions| && !c.transactions[u].completed
      case _ => false
  }

  lemma WithoutGateStep(c: Conn, a: Action, t: nat)
    requires Sound(c) && t < |c.transactions|
    ensures t < |Act(c, a).0.transactions|
    ensures !WithoutGate(c, t) ==> (WithoutGate(Act(c, a).0, t) <==> TakesGate(c, a, t))
  {
  }

  lemma TakesGateExactly(t: nat)
    ensures Causes((c: Conn) => t < |c.transactions|, c => WithoutGate(c, t), (c, a) => TakesGate(c, a, t))
  {
    forall c: Conn, a: Action | Sound(c) && t < |c.transactions|
      ensures t < |Act(c, a).0.transactions|
      ensures !WithoutGate(c, t) ==> (WithoutGate(Act(c, a).0, t) <==> TakesGate(c, a, t))
    {
      WithoutGateStep(c, a, t);
    }
  }

  ghost predicate GateTakenBy(s: System, events: seq<Event>, i: nat, t: nat, p: nat)
    requires i < |s.conns|
  {
    CausedAt(Trace(s, events, i), events, i, c => WithoutGate(c, t), (c, a) => TakesGate(c, a, t), p)
  }

  /** What takes the gate away.  From a state on in which transaction `t` of connection `i` holds the
      gate, as it does from its first write: at any time later it is under way without it if and only
      if a checkpoint or optimization of its own connection, or a commit or rollback that failed, has
      let go of it, and it has been without ever since. */
  lemma WhatTakesTheGate(s: System, events: seq<Event>, i: nat, t: nat)
    requires Conserved(s) && i < |s.conns| && t < |s.conns[i].transactions| && !WithoutGate(s.conns[i], t)
    ensures |Run(s, events).conns| == |s.conns|
    ensures WithoutGate(Run(s, events).conns[i], t) <==> exists p: nat :: GateTakenBy(s, events, i, t, p)
  {
    TakesGateExactly(t);
    TraceEnds(s, events, i);
    if WithoutGate(Run(s, events).conns[i], t) {
      var holds := (c: Conn) => WithoutGate(c, t);
      var causes := (c: Conn, a: Action) => TakesGate(c, a, t);
      LastCause(s, events, i, (c: Conn) => t < |c.transactions|, holds, causes);
      assert !holds(Trace(s, events, i)[0]);
      var p: nat :| CausedAt(Trace(s, events, i), events, i, holds, causes, p);
      assert GateTakenBy(s, events, i, t, p);
    }
  }

  const WRITE_IN_TRANSACTION: seq<Event> := [Event(0, StartWrite), Event(0, Enter), Event(0, Finish(true))]
  const CHECKPOINT: seq<Event> := [Event(0, StartMaintenance), Event(0, Finish(true))]
  const OTHER_WRITE: seq<Event> := [Event(1, StartWrite), Event(1, Enter)]

  const BEGUN := ONE.(engine := true, active := Some(0), transactions := [Transaction(false, 0)])

  lemma RunTwo(s: System, a: Event, b: Event)
    ensures Run(s, [a, b]) == Step(Step(s, a), b)
  {
    assert [a, b][1..] == [b];
    assert Run(Step(s, a), [b]) == Run(Step(Step(s, a), b), []);
  }

  lemma WriteRuns()
    ensures Run(System(map[], [BEGUN, ONE]), WRITE_IN_TRANSACTION) == System(map[1 := 0], [BEGUN.(gate := Some(1)), ONE])
  {
    var s := System(map[], [BEGUN, ONE]);
    var a := Step(s, WRITE_IN_TRANSACTION[0]);
    assert a == System(map[], [BEGUN.(pc := Waiting(TransactionWrite)), ONE]);
    var b := Step(a, WRITE_IN_TRANSACTION[1]);
    assert b == System(map[1 := 0], [BEGUN.(gate := Some(1), pc := Running(TransactionWrite)), ONE]);
    RunThree(s, WRITE_IN_TRANSACTION[0], WRITE_IN_TRANSACTION[1], WRITE_IN_TRANSACTION[2]);
  }

  lemma CheckpointRuns()
    ensures Run(System(map[1 := 0], [BEGUN.(gate := Some(1)), ONE]), CHECKPOINT) == System(map[1 := 1], [BEGUN, ONE])
  {
    var s := System(map[1 := 0], [BEGUN.(gate := Some(1)), ONE]);
    var a := Step(s, CHECKPOINT[0]);
    assert a == System(map[1 := 0], [BEGUN.(gate := Some(1), pc := Running(Maintenance)), ONE]);
    RunTwo(s, CHECKPOINT[0], CHECKPOINT[1]);
  }

  lemma OtherWriteRuns()
    ensures Run(System(map[1 := 1], [BEGUN, ONE]), OTHER_WRITE) ==
      System(map[1 := 0], [BEGUN, ONE.(gate := Some(1), pc := Running(AutocommitWrite))])
  {
    var s := System(map[1 := 1], [BEGUN, ONE]);
    var a := Step(s, OTHER_WRITE[0]);
    assert a == System(map[1 := 1], [BEGUN, ONE.(pc := Waiting(AutocommitWrite))]);
    RunTwo(s, OTHER_WRITE[0], OTHER_WRITE[1]);
  }

  const BEGINNING: seq<Event> :=
    [Event(0, SetConnectionString(1, true)), Event(0, Open(1, false)), Event(0, Begin(true))]
  const SECOND_OPEN: seq<Event> := [Event(1, SetConnectionString(1, true)), Event(1, Open(1, false))]

  lemma OpenRuns()
    ensures Run(Start(2), BEGINNING + SECOND_OPEN) == System(map[], [BEGUN, ONE])
  {
    var s := Start(2);
    assert s.conns == [FRESH, FRESH];
    var a := Step(s, BEGINNING[0]);
    assert a == System(map[], [ONE.(open := false), FRESH]);
    var b := Step(a, BEGINNING[1]);
    assert b == System(map[], [ONE, FRESH]);
    var c := System(map[], [BEGUN, FRESH]);
    assert ONE.transactions + [Transaction(false, 0)] == BEGUN.transactions;
    assert Step(b, BEGINNING[2]) == c;
    RunThree(s, BEGINNING[0], BEGINNING[1], BEGINNING[2]);
    assert Step(c, SECOND_OPEN[0]) == System(map[], [BEGUN, ONE.(open := false)]);
    RunTwo(c, SECOND_OPEN[0], SECOND_OPEN[1]);
    RunAppend(s, BEGINNING, SECOND_OPEN);
  }

  /** A transaction writes, its connection makes a checkpoint, and another connection of the same key
      then writes outside any transaction while the first is under way without the gate. */
  lemma CheckpointLetsIn()
    ensures
      var s := Run(Start(2), (BEGINNING + SECOND_OPEN) + (WRITE_IN_TRANSACTION + (CHECKPOINT + OTHER_WRITE)));
      && |s.conns| == 2 && s.conns[0].key == s.conns[1].key
      && WithoutGate(s.conns[0], 0) && s.conns[0].engine && s.conns[1].pc == Running(AutocommitWrite)
  {
    OpenRuns();
    WriteRuns();
    CheckpointRuns();
    OtherWriteRuns();
    RunAppend(Start(2), BEGINNING + SECOND_OPEN, WRITE_IN_TRANSACTION + (CHECKPOINT + OTHER_WRITE));
    RunAppend(System(map[], [BEGUN, ONE]), WRITE_IN_TRANSACTION, CHECKPOINT + OTHER_WRITE);
    RunAppend(System(map[1 := 0], [BEGUN.(gate := Some(1)), ONE]), CHECKPOINT, OTHER_WRITE);
  }
}
