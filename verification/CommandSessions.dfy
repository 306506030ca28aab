/** Which session a command runs on.  A prepared command keeps its handles when its connection is closed,
    and they belong to the session they were compiled on, whoever has rented that session since.  The
    commands have at least one statement. */
module CommandSessions {
  import opened Options

  type SessionId = nat

  /** The connection of a command, and the session its handles belong to while `_prepared` holds. */
  datatype Command = Command(connection: nat, home: Option<SessionId>)

  /** The sessions of the connections that are open, and the commands. */
  datatype State = State(sessions: seq<Option<SessionId>>, commands: seq<Command>)

  datatype Event =
    | Open(connection: nat, session: SessionId)
    | Close(connection: nat)
    | Prepare(command: nat)
    | Invalidate(command: nat)
    | SetConnection(command: nat, connection: nat)

  function SessionOf(s: State, connection: nat): Option<SessionId> {
    if connection < |s.sessions| then s.sessions[connection] else None
  }

  /** The pool hands a session out to one connection at a time.  Opening an open connection and preparing
      a prepared command do nothing. */
  function Step(s: State, e: Event): (t: State)
    ensures |t.commands| == |s.commands|
  {
    match e
    case Open(i, x) =>
      if i < |s.sessions| && s.sessions[i].None? && Some(x) !in s.sessions then
        s.(sessions := s.sessions[i := Some(x)])
      else s
    case Close(i) => if i < |s.sessions| then s.(sessions := s.sessions[i := None]) else s
    case Prepare(k) =>
      if k < |s.commands| && s.commands[k].home.None? then
        s.(commands := s.commands[k := s.commands[k].(home := SessionOf(s, s.commands[k].connection))])
      else s
    case Invalidate(k) => if k < |s.commands| then s.(commands := s.commands[k := s.commands[k].(home := None)]) else s
    case SetConnection(k, i) =>
      if k < |s.commands| && s.commands[k].connection != i then s.(commands := s.commands[k := Command(i, None)]) else s
  }

  function Run(s: State, events: seq<Event>): (t: State)
    ensures |t.commands| == |s.commands|
    decreases |events|
  {
    if events == [] then s else Run(Step(s, events[0]), events[1..])
  }

  /** A command runs when its connection is open. */
  predicate MayRun(s: State, k: nat)
    requires k < |s.commands|
  {
    SessionOf(s, s.commands[k].connection).Some?
  }

  /** The session a command runs on: that of its handles, or else that of its connection. */
  function Used(s: State, k: nat): Option<SessionId>
    requires k < |s.commands|
  {
    if s.commands[k].home.Some? then s.commands[k].home else SessionOf(s, s.commands[k].connection)
  }

  /** No two connections have the same session. */
  predicate Exclusive(s: State) {
    forall i, j :: 0 <= i < j < |s.sessions| && s.sessions[i].Some? ==> s.sessions[i] != s.sessions[j]
  }

  /** The handles belong to a session that the connection of the command does not have. */
  predicate Stray(s: State, k: nat)
    requires k < |s.commands|
  {
    var c := s.commands[k];
    c.home.Some? && SessionOf(s, c.connection) != c.home
  }

  /** The connection of the command gives up the session of the handles. */
  predicate GivesUp(s: State, e: Event, k: nat)
    requires k < |s.commands|
  {
    var c := s.commands[k];
    e == Close(c.connection) && c.home.Some? && SessionOf(s, c.connection) == c.home
  }

  /** The handles are disposed of, or the connection rents their session again. */
  predicate Recovers(s: State, e: Event, k: nat)
    requires k < |s.commands|
  {
    var c := s.commands[k];
    || e == Invalidate(k)
    || (e.SetConnection? && e.command == k && e.connection != c.connection)
    || (c.home.Some? && e == Open(c.connection, c.home.value) && Step(s, e) != s)
  }

  ghost predicate NeverRecovers(s: State, events: seq<Event>, k: nat)
    requires k < |s.commands|
    decreases |events|
  {
    events == [] || (!Recovers(s, events[0], k) && NeverRecovers(Step(s, events[0]), events[1..], k))
  }

  /** The session of the handles is given up in the run, and the command never recovers after that. */
  ghost predicate Abandoned(s: State, events: seq<Event>, k: nat)
    requires k < |s.commands|
    decreases |events|
  {
    events != [] &&
    var t := Step(s, events[0]);
    || (GivesUp(s, events[0], k) && NeverRecovers(t, events[1..], k))
    || Abandoned(t, events[1..], k)
  }

  lemma StepStrays(s: State, e: Event, k: nat)
    requires k < |s.commands|
    ensures Stray(Step(s, e), k) <==> GivesUp(s, e, k) || (Stray(s, k) && !Recovers(s, e, k))
  {
  }

  lemma {:induction false} RunStrays(s: State, events: seq<Event>, k: nat)
    requires k < |s.commands|
    ensures Stray(Run(s, events), k) <==>
            Abandoned(s, events, k) || (Stray(s, k) && NeverRecovers(s, events, k))
    decreases |events|
  {
    if events != [] {
      StepStrays(s, events[0], k);
      RunStrays(Step(s, events[0]), events[1..], k);
    }
  }

  lemma {:induction false} RunExclusive(s: State, events: seq<Event>)
    requires Exclusive(s)
    ensures Exclusive(Run(s, events))
    decreases |events|
  {
    if events != [] {
      assert Exclusive(Step(s, events[0]));
      RunExclusive(Step(s, events[0]), events[1..]);
    }
  }

  /** Over all runs: a command runs on the session of another connection if and only if it was prepared on
      that session, its own connection has given the session up since, and neither has the command been
      invalidated nor the session been rented back. */
  lemma ExactlyAbandoned(s: State, events: seq<Event>, k: nat, i: nat)
    requires Exclusive(s) && k < |s.commands| && !Stray(s, k)
    requires
      var t := Run(s, events);
      MayRun(t, k) && SessionOf(t, i).Some? && t.commands[k].connection != i
    ensures
      var t := Run(s, events);
      Used(t, k) == SessionOf(t, i) <==> Abandoned(s, events, k) && t.commands[k].home == SessionOf(t, i)
  {
    RunStrays(s, events, k);
    RunExclusive(s, events);
    var t := Run(s, events);
    var j := t.commands[k].connection;
    assert SessionOf(t, j) != SessionOf(t, i) by {
      if i < j { assert t.sessions[i] != t.sessions[j]; } else { assert t.sessions[j] != t.sessions[i]; }
    }
  }

  lemma RunFrom(s: State, events: seq<Event>, n: nat)
    requires n < |events|
    ensures Run(s, events[n..]) == Run(Step(s, events[n]), events[n + 1..])
  {
    assert events[n..][1..] == events[n + 1..];
  }

  lemma RunOfFive(s: State, events: seq<Event>)
    requires |events| == 5
    ensures
      Run(s, events) ==
      Step(Step(Step(Step(Step(s, events[0]), events[1]), events[2]), events[3]), events[4])
  {
    var a := Step(s, events[0]);
    var b := Step(a, events[1]);
    var c := Step(b, events[2]);
    var d := Step(c, events[3]);
    RunFrom(s, events, 0);
    RunFrom(a, events, 1);
    RunFrom(b, events, 2);
    RunFrom(c, events, 3);
    RunFrom(d, events, 4);
    assert events[0..] == events && events[5..] == [];
  }

  /** A command is prepared, its connection closed and opened again on another session, and the first
      session rented by a second connection: commands of both connections then run on it. */
  lemma SharedSession(x: SessionId, y: SessionId)
    requires x != y
    ensures
      var start := State([None, None], [Command(0, None), Command(1, None)]);
      var t := Run(start, [Open(0, x), Prepare(0), Close(0), Open(1, x), Open(0, y)]);
      && Exclusive(start) && !Stray(start, 0)
      && MayRun(t, 0) && MayRun(t, 1) && Used(t, 0) == Used(t, 1) == Some(x)
  {
    var start := State([None, None], [Command(0, None), Command(1, None)]);
    var events := [Open(0, x), Prepare(0), Close(0), Open(1, x), Open(0, y)];
    var a := State([Some(x), None], start.commands);
    var b := State([Some(x), None], [Command(0, Some(x)), Command(1, None)]);
    var c := State([None, None], b.commands);
    var d := State([None, Some(x)], b.commands);
    var t := State([Some(y), Some(x)], b.commands);
    RunOfFive(start, events);
    assert Step(start, events[0]) == a && Step(a, events[1]) == b && Step(b, events[2]) == c;
    assert Step(c, events[3]) == d && Step(d, events[4]) == t;
  }
}
