/**
 * `Manager` as the program has it: a map of entry objects, each critical section under `mu` a method. The methods are
 * proved against the map functions of the protocol, so a protocol step on the map is what the method does.
 */
module ManagerObject {
  import opened GoText
  import opened SessionSteps
  import opened SessionSequences
  import opened SessionObject
  import opened Protocol

  class SessionEntry {
    var session: SessionState?
    ghost const number: nat

    constructor (ghost number: nat)
      ensures session == null && this.number == number
    {
      session := null;
      this.number := number;
    }
  }

  class Manager {
    var sessions: map<string, SessionEntry>
    ghost var entries: seq<SessionEntry>

    /** Entries are numbered as they were reserved; only such entries are in the map. */
    ghost predicate Valid()
      reads this
    {
      && (forall i :: 0 <= i < |entries| ==> entries[i].number == i)
      && (forall id :: id in sessions ==> sessions[id] in entries)
    }

    ghost function Bindings(): (bindings: map<string, nat>)
      reads this
    {
      map id | id in sessions :: sessions[id].number
    }

    lemma SameNumber(e: SessionEntry, f: SessionEntry)
      requires Valid() && e in entries && f in entries && e.number == f.number
      ensures e == f
    {
    }

    constructor ()
      ensures Valid() && sessions == map[] && entries == []
    {
      sessions, entries := map[], [];
    }

    method Len() returns (n: nat)
      ensures n == |sessions|
    {
      n := |sessions|;
    }

    /** `Create` up to the call of `NewSession`: null tells that the session exists. */
    method Reserve(id: string) returns (entry: SessionEntry?)
      requires Valid()
      modifies this
      ensures Valid()
      ensures entry == null <==> id in old(sessions)
      ensures entry == null ==> sessions == old(sessions) && entries == old(entries)
      ensures entry != null ==> fresh(entry) && entry.session == null && entries == old(entries) + [entry]
      ensures entry != null ==> sessions == old(sessions)[id := entry]
      ensures entry != null ==> Bindings() == old(Bindings())[id := |old(entries)|]
    {
      if id in sessions {
        return null;
      }
      entry := new SessionEntry(|entries|);
      entries := entries + [entry];
      sessions := sessions[id := entry];
    }

    /** `Create` after `NewSession` succeeded: publishes unless the entry has left the map. */
    method Publish(id: string, entry: SessionEntry, session: SessionState) returns (published: bool)
      requires Valid() && entry in entries
      modifies entry
      ensures Valid()
      ensures published <==> id in Bindings() && Bindings()[id] == entry.number
      ensures entry.session == if published then session else old(entry.session)
    {
      published := id in sessions && sessions[id] == entry;
      if id in sessions && sessions[id].number == entry.number {
        SameNumber(sessions[id], entry);
      }
      if published {
        entry.session := session;
      }
    }

    method RemoveEntry(id: string, expected: SessionEntry)
      requires Valid() && expected in entries
      modifies this`sessions
      ensures Valid() && Bindings() == RemoveBinding(old(Bindings()), id, expected.number)
      ensures forall other :: other in old(sessions) && other != id ==>
                other in sessions && sessions[other] == old(sessions)[other]
    {
      if id in sessions && sessions[id].number == expected.number {
        SameNumber(sessions[id], expected);
      }
      if id in sessions && sessions[id] == expected {
        sessions := map i | i in sessions && i != id :: sessions[i];
      }
    }

    /** The critical section of `expire`. */
    method TakeExpired(id: string, expected: SessionState) returns (matches: bool)
      requires Valid()
      modifies this`sessions
      ensures Valid()
      ensures matches <==> id in old(sessions) && old(sessions[id].session) == expected
      ensures Bindings() == if matches then Without(old(Bindings()), id) else old(Bindings())
    {
      matches := id in sessions && sessions[id].session == expected;
      if matches {
        sessions := map i | i in sessions && i != id :: sessions[i];
      }
    }

    /** The critical section of `Close`: the binding goes even when it holds no session yet. */
    method TakeOne(id: string) returns (session: SessionState?)
      requires Valid()
      modifies this`sessions
      ensures Valid() && Bindings() == Without(old(Bindings()), id)
      ensures session == if id in old(sessions) then old(sessions[id].session) else null
    {
      session := null;
      if id in sessions {
        session := sessions[id].session;
        sessions := map i | i in sessions && i != id :: sessions[i];
      }
    }

    /** The read section of `MarkConnected`, then the session's own. */
    method MarkConnected(id: string) returns (found: bool)
      requires Valid()
      requires id in sessions && sessions[id].session != null ==> sessions[id].session.Valid()
      modifies if id in sessions && sessions[id].session != null then {sessions[id].session} else {}
      ensures found <==> id in sessions && old(sessions[id].session) != null
      ensures found ==> var session := old(sessions[id].session);
                        session != null && session.Valid() && session.connected
                        && session.core == SessionSteps.MarkConnected(old(sessions[id].session.core))
      ensures sessions == old(sessions)
    {
      var session: SessionState? := null;
      if id in sessions {
        session := sessions[id].session;
      }
      if session == null {
        return false;
      }
      session.MarkConnected();
      found := true;
    }

    /**
     * The critical section of `CloseAll`: every published session, in whatever order the map yields, and a clear map.
     */
    method TakeAll() returns (taken: seq<SessionState>, ghost order: seq<string>)
      requires Valid()
      modifies this`sessions
      ensures Valid() && sessions == map[]
      ensures |taken| == |order| && (forall i, j :: 0 <= i < j < |order| ==> order[i] != order[j])
      ensures forall i :: 0 <= i < |order| ==> order[i] in old(sessions) && old(sessions)[order[i]].session == taken[i]
      ensures forall id :: id in old(sessions) && old(sessions)[id].session != null ==> id in order
    {
      taken, order := [], [];
      var todo := sessions.Keys;
      while todo != {}
        invariant todo <= sessions.Keys && sessions == old(sessions)
        invariant |taken| == |order| && (forall i, j :: 0 <= i < j < |order| ==> order[i] != order[j])
        invariant forall i :: 0 <= i < |order| ==>
                  order[i] in sessions.Keys - todo && sessions[order[i]].session == taken[i]
        invariant forall id :: id in sessions.Keys - todo && sessions[id].session != null ==> id in order
        decreases |todo|
      {
        var id :| id in todo;
        var session := sessions[id].session;
        if session != null {
          taken := taken + [session];
          order := order + [id];
        }
        todo := todo - {id};
      }
      sessions := map[];
    }
  }

  /** The session's own objects: what its methods may change. */
  ghost function Parts(s: SessionState): set<object>
    reads s
  {
    {s} + (if s.recorder == null then {} else {s.recorder}) +
    (if s.disconnectTimer == null then {} else {s.disconnectTimer}) +
    (if s.expiryTimer == null then {} else {s.expiryTimer})
  }

  /** A session that can be closed now: no method of it is running. */
  ghost predicate Closable(s: SessionState)
    reads s, Parts(s)
  {
    s.Valid() && (!s.closeOnce ==> s.closeErr == None)
  }

  /** The errors that the sessions report, in order. */
  function Errors(sessions: seq<SessionState>): (errors: seq<CloseError>)
    reads sessions
  {
    if sessions == [] then []
    else (if sessions[0].closeErr.Some? then [sessions[0].closeErr.value] else []) + Errors(sessions[1..])
  }

  lemma {:induction false} ErrorsSnoc(sessions: seq<SessionState>, last: SessionState)
    ensures Errors(sessions + [last]) == Errors(sessions) + if last.closeErr.Some? then [last.closeErr.value] else []
  {
    if sessions == [] {
      assert [last][1..] == [];
    } else {
      assert (sessions + [last])[1..] == sessions[1..] + [last];
      ErrorsSnoc(sessions[1..], last);
    }
  }

  ghost predicate Shut(s: SessionState, before: Session)
    reads s, Parts(s)
  {
    Parts(s) == {s} && s.Valid() && s.closeOnce && s.core == Closed(before)
  }

  ghost predicate Apart(sessions: seq<SessionState>)
    reads sessions
  {
    forall i, j :: 0 <= i < |sessions| && 0 <= j < |sessions| && i != j ==> Parts(sessions[i]) !! Parts(sessions[j])
  }

  /** Session j is closed if it is before i, and as it was before otherwise. */
  ghost predicate Turn(s: SessionState, closed: bool, before: Session, all: set<object>)
    reads s, all
  {
    Parts(s) <= all && if closed then Shut(s, before) else Closable(s) && s.core == before
  }

  /** Up to i the sessions are closed; from i on they are as they were before. */
  ghost predicate ClosedUpTo(sessions: seq<SessionState>, i: nat, before: seq<Session>, all: set<object>)
    reads sessions, all
    requires |before| == |sessions|
  {
    && Apart(sessions)
    && (forall j :: 0 <= j < |sessions| ==> Turn(sessions[j], j < i, before[j], all))
  }

  lemma ErrorsNext(sessions: seq<SessionState>, i: nat)
    requires i < |sessions|
    ensures Errors(sessions[..i + 1]) ==
            Errors(sessions[..i]) + if sessions[i].closeErr.Some? then [sessions[i].closeErr.value] else []
  {
    assert sessions[..i + 1] == sessions[..i] + [sessions[i]];
    ErrorsSnoc(sessions[..i], sessions[i]);
  }

  /** One turn of the loop. */
  method CloseNext(session: SessionState, recorderOk: bool, peerOk: bool, ghost before: Session, ghost all: set<object>)
    returns (error: Option<CloseError>)
    requires Turn(session, false, before, all)
    modifies Parts(session)
    ensures Turn(session, true, before, all) && Parts(session) <= old(Parts(session))
    ensures error == session.closeErr
  {
    error := session.Close(recorderOk, peerOk);
  }

  /** One turn of the loop, seen from all the sessions. */
  method CloseTurn(taken: seq<SessionState>, i: nat, recorderOk: bool, peerOk: bool, ghost before: seq<Session>,
      ghost all: set<object>)
    returns (error: Option<CloseError>)
    requires |taken| == |before| && i < |taken| && ClosedUpTo(taken, i, before, all)
    modifies all
    ensures ClosedUpTo(taken, i + 1, before, all)
    ensures Errors(taken[..i + 1]) == old(Errors(taken[..i])) + if error.Some? then [error.value] else []
  {
    assert Turn(taken[i], false, before[i], all);
    error := CloseNext(taken[i], recorderOk, peerOk, before[i], all);
    forall j | 0 <= j < |taken| && j != i
      ensures Turn(taken[j], j < i, before[j], all) && Parts(taken[j]) == old(Parts(taken[j]))
    {
      assert old(Turn(taken[j], j < i, before[j], all)) && old(Parts(taken[j])) !! old(Parts(taken[i]));
    }
    assert Errors(taken[..i]) == old(Errors(taken[..i]));
    ErrorsNext(taken, i);
  }

  /** The loop of `CloseAll`. */
  method CloseEach(taken: seq<SessionState>, recorderOk: seq<bool>, peerOk: seq<bool>, ghost before: seq<Session>,
      ghost all: set<object>)
    returns (result: seq<CloseError>)
    requires |recorderOk| == |peerOk| == |taken| == |before| && ClosedUpTo(taken, 0, before, all)
    modifies all
    ensures ClosedUpTo(taken, |taken|, before, all)
    ensures result == Errors(taken)
  {
    result := [];
    var i := 0;
    while i < |taken|
      invariant 0 <= i <= |taken| && ClosedUpTo(taken, i, before, all)
      invariant result == Errors(taken[..i])
    {
      var error := CloseTurn(taken, i, recorderOk[i], peerOk[i], before, all);
      if error.Some? {
        result := result + [error.value];
      }
      i := i + 1;
    }
    assert taken[..i] == taken;
  }
}
