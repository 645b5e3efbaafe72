/** `Manager.Close` and `Manager.CloseAll` as whole calls: the critical section, then the sessions. */
module ManagerCloses {
  import opened GoText
  import opened SessionSteps
  import opened SessionSequences
  import opened SessionObject
  import opened Protocol
  import opened ManagerObject

  ghost predicate PublishedAt(m: Manager, id: string)
    reads m, if id in m.sessions then {m.sessions[id]} else {}
  {
    id in m.sessions && m.sessions[id].session != null
  }

  /** `Manager.Close`, with the session's terminal callback: the id is free afterwards, and its session closed. */
  method CloseOne(m: Manager, id: string, recorderOk: bool, peerOk: bool)
    returns (found: bool, error: Option<CloseError>)
    requires m.Valid()
    requires PublishedAt(m, id) ==> Closable(m.sessions[id].session)
    modifies m`sessions, if PublishedAt(m, id) then Parts(m.sessions[id].session) else {}
    ensures m.Valid() && m.Bindings() == Without(old(m.Bindings()), id)
    ensures found <==> old(PublishedAt(m, id))
    ensures found ==> var session := old(m.sessions[id].session);
                      && session != null && session.Valid() && session.closeOnce && error == session.closeErr
                      && session.core == Closed(old(m.sessions[id].session.core))
  {
    var entry: SessionEntry? := if id in m.sessions then m.sessions[id] else null;
    var session := m.TakeOne(id);
    if entry == null || session == null {
      return false, None;
    }
    found := true;
    error := session.Close(recorderOk, peerOk);
    m.RemoveEntry(id, entry);
    assert m.Bindings() == Without(old(m.Bindings()), id);
  }

  /** Every published session can be closed, and no two share an object. */
  ghost predicate AllClosable(sessions: map<string, SessionEntry>, all: set<object>)
    reads sessions.Values, all
  {
    && (forall id ::
          id in sessions && sessions[id].session != null ==>
          var s := sessions[id].session; s in all && Parts(s) <= all && Closable(s))
    && (forall id, other ::
          id in sessions && other in sessions && id != other
          && sessions[id].session != null && sessions[other].session != null
          && sessions[id].session in all && sessions[other].session in all ==>
          Parts(sessions[id].session) !! Parts(sessions[other].session))
  }

  lemma TakenApart(sessions: map<string, SessionEntry>, taken: seq<SessionState>, order: seq<string>, all: set<object>)
    requires AllClosable(sessions, all) && |taken| == |order|
    requires forall i, j :: 0 <= i < j < |order| ==> order[i] != order[j]
    requires forall i :: 0 <= i < |order| ==> order[i] in sessions && sessions[order[i]].session == taken[i]
    ensures ClosedUpTo(taken, 0, Cores(taken), all)
  {
    forall i | 0 <= i < |taken|
      ensures taken[i] in all && Turn(taken[i], false, Cores(taken)[i], all)
    {
      assert sessions[order[i]].session == taken[i];
    }
    forall i, j | 0 <= i < |taken| && 0 <= j < |taken| && i != j
      ensures Parts(taken[i]) !! Parts(taken[j])
    {
      assert order[i] != order[j];
    }
  }

  function Repeated(ok: SessionState -> bool, sessions: seq<SessionState>): (answers: seq<bool>)
    ensures |answers| == |sessions|
    ensures forall i :: 0 <= i < |sessions| ==> answers[i] == ok(sessions[i])
  {
    if sessions == [] then [] else [ok(sessions[0])] + Repeated(ok, sessions[1..])
  }

  ghost function Cores(sessions: seq<SessionState>): (cores: seq<Session>)
    reads sessions
    ensures |cores| == |sessions|
    ensures forall i :: 0 <= i < |sessions| ==> cores[i] == sessions[i].core
  {
    if sessions == [] then [] else [sessions[0].core] + Cores(sessions[1..])
  }

  /**
   * `Manager.CloseAll`: the map is empty, every session that was published is closed, and the result joins their
   * errors.
   * `recorderOk` and `peerOk` say what the foreign closes of each session answer.
   */
  method CloseAll(m: Manager, recorderOk: SessionState -> bool, peerOk: SessionState -> bool, ghost all: set<object>)
    returns (result: seq<CloseError>, ghost closed: seq<SessionState>, ghost ids: seq<string>)
    requires m.Valid() && AllClosable(m.sessions, all) && m !in all
    modifies m`sessions, all
    ensures m.Valid() && m.sessions == map[]
    ensures forall id :: id in old(m.sessions) && old(m.sessions[id].session) != null ==>
              old(m.sessions[id].session) in closed
    ensures forall i :: 0 <= i < |closed| ==> closed[i].Valid() && closed[i].closeOnce
    ensures |ids| == |closed|
    ensures forall i :: 0 <= i < |ids| ==> ids[i] in old(m.sessions) && old(m.sessions[ids[i]].session) == closed[i]
    ensures result == Errors(closed)
  {
    var taken, order := m.TakeAll();
    TakenApart(old(m.sessions), taken, order, all);
    ghost var before := Cores(taken);
    result := CloseEach(taken, Repeated(recorderOk, taken), Repeated(peerOk, taken), before, all);
    closed, ids := taken, order;
    forall i | 0 <= i < |taken|
      ensures taken[i].Valid() && taken[i].closeOnce
    {
      assert Turn(taken[i], true, before[i], all);
    }
  }
}
