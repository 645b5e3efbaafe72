/** The manager's own steps, and with them every step of a run, keep the protocol's invariant. */
module ProtocolMoves {
  import opened GoText
  import opened SessionSteps
  import opened Protocol
  import opened ProtocolInvariant
  import opened ProtocolSteps

  // ---- steps that leave every session as it is ----

  /** No entry appears, and only the owner's step touches one. */
  predicate MapMoves(st: State, st': State, t: nat) {
    && st'.live == st.live
    && st'.entries.Keys == st.entries.Keys
    && OnlyThread(st, st', t)
    && EntriesGrow(st, st', t)
    && MapOk(st')
  }

  lemma MoveAnswers(st: State, st': State, t: nat, x: nat)
    requires Inv(st) && MapMoves(st, st', t) && x in st.live
    requires t in st.threads ==> !HasStake(st.threads[t], x)
    ensures Answers(st', t, x)
  {
    LiveIn(st, x);
    NothingGranted(st, t, x, st'.threads[t]);
  }

  ghost predicate NoStake(st: State, t: nat) {
    t in st.threads ==> forall x :: !HasStake(st.threads[t], x)
  }

  predicate Remembers(st: State, st': State, t: nat) {
    t in st.threads && t in st'.threads && SessionOf(st.threads[t]).Some? ==>
        SessionOf(st'.threads[t]) == SessionOf(st.threads[t])
  }

  lemma MoveKeeps(st: State, st': State, t: nat)
    requires Inv(st) && MapMoves(st, st', t) && NoStake(st, t)
    requires ThreadOk(st', t) && Remembers(st, st', t)
    requires forall e :: e in st'.entries && st'.entries[e].owner == t ==> EntryOk(st', e)
    requires forall s :: s in st.live ==> NotDropped(st, st', t, s)
    ensures Steps(st, st', t)
  {
    forall x | x in st'.live
      ensures Answers(st', t, x)
    {
      MoveAnswers(st, st', t, x);
    }
    forall x | x in st.live
      ensures StepOf(st.live[x].core, st'.live[x].core, t)
    {
      StepOfItself(st.live[x].core, t);
    }
    StepKeepsInv(st, st', t);
  }

  // ---- threads outside Create ----

  /** Bindings may go only if the thread goes on to close what was published there. */
  ghost predicate TakesOver(st: State, st': State, t: nat)
    requires st'.live == st.live && t in st'.threads
  {
    && (forall s :: s in st.live && InMap(st, s) && !InMap(st', s)
          ==> Owes(st'.threads[t], s))
    && (t in st.threads ==> forall s :: Owes(st.threads[t], s) ==> Owes(st'.threads[t], s))
  }

  lemma OwnsNoEntry(st: State, t: nat)
    requires Inv(st) && (t in st.threads ==> EntryOf(st.threads[t]) == None)
    ensures forall e :: e in st.entries ==> st.entries[e].owner != t
  {
    forall e | e in st.entries
      ensures st.entries[e].owner != t
    {
      EntryIn(st, e);
    }
  }

  lemma OutsiderKeeps(st: State, t: nat, sessions: map<string, nat>, next: Thread)
    requires ThreadOk(Unbind(st, t, sessions, next), t)
    requires TakesOver(st, Unbind(st, t, sessions, next), t)
    requires Inv(st) && NoStake(st, t)
    requires forall id :: id in sessions ==> id in st.sessions && sessions[id] == st.sessions[id]
    requires EntryOf(next) == None && SessionOf(next) == None
    requires t in st.threads ==> EntryOf(st.threads[t]) == None && SessionOf(st.threads[t]) == None
    ensures Steps(st, Unbind(st, t, sessions, next), t)
  {
    var st' := Unbind(st, t, sessions, next);
    MapOf(st);
    OwnsNoEntry(st, t);
    forall s | s in st.live
      ensures NotDropped(st, st', t, s)
    {
    }
    MoveKeeps(st, st', t);
  }

  lemma OutsiderGoto(st: State, t: nat, next: Thread)
    requires Inv(st) && NoStake(st, t)
    requires EntryOf(next) == None && SessionOf(next) == None
    requires t in st.threads ==> EntryOf(st.threads[t]) == None && SessionOf(st.threads[t]) == None
    requires ThreadOk(Goto(st, t, next), t)
    requires t in st.threads ==> forall s :: Owes(st.threads[t], s) ==> Owes(next, s)
    ensures Steps(st, Goto(st, t, next), t)
  {
    assert Unbind(st, t, st.sessions, next) == Goto(st, t, next);
    OutsiderKeeps(st, t, st.sessions, next);
  }

  /** A published session exists, and its Create is past publication. */
  lemma PublishedLive(st: State, id: string)
    requires Inv(st) && Published(st, id).Some?
    ensures var s := Published(st, id).value;
            s in st.live && InMap(st, s) && st.live[s].entry == st.sessions[id]
  {
    MapOf(st);
    EntryIn(st, st.sessions[id]);
  }

  lemma PublishedUnder(st: State, s: nat)
    requires Inv(st) && s in st.live && InMap(st, s)
    ensures var id := st.entries[st.live[s].entry].id;
            id in st.sessions && st.sessions[id] == st.live[s].entry && Published(st, id) == Some(s)
  {
  }

  lemma SpawnStep(st: State, t: nat, thread: Thread)
    requires Inv(st) && t !in st.threads && Spawnable(st, thread)
    ensures Steps(st, Goto(st, t, thread), t)
  {
    OutsiderGoto(st, t, thread);
  }

  lemma RejectedStep(st: State, t: nat, id: string)
    requires Inv(st) && t in st.threads && st.threads[t] == CreateStart(id)
    ensures Steps(st, Goto(st, t, Rejected), t)
  {
    OutsiderGoto(st, t, Rejected);
  }

  lemma MarkingIdStep(st: State, t: nat, id: string)
    requires Inv(st) && t in st.threads && st.threads[t] == MarkingId(id)
    ensures Steps(st, Goto(st, t, if Published(st, id).Some? then Marking(Published(st, id).value) else Ended), t)
  {
    if Published(st, id).Some? {
      PublishedLive(st, id);
      OutsiderGoto(st, t, Marking(Published(st, id).value));
    } else {
      OutsiderGoto(st, t, Ended);
    }
  }

  lemma CloseLoopStep(st: State, t: nat, todo: seq<nat>, targets: set<nat>)
    requires Inv(st) && t in st.threads && st.threads[t] == CloseLoop(todo, targets)
    ensures Steps(st, Goto(st, t, if todo == [] then Ended else CallClose(todo[0], CloseLoop(todo[1..], targets))), t)
  {
    ThreadIn(st, t);
    if todo == [] {
      OutsiderGoto(st, t, Ended);
    } else {
      assert todo == [todo[0]] + todo[1..];
      OutsiderGoto(st, t, CallClose(todo[0], CloseLoop(todo[1..], targets)));
    }
  }

  /** Taking one id out of the map drops at most the session published there. */
  lemma WithoutKeeps(st: State, t: nat, id: string, next: Thread, s: nat)
    requires Inv(st) && s in st.live
    requires InMap(st, s) && Published(st, id) != Some(s)
    ensures InMap(Unbind(st, t, Without(st.sessions, id), next), s)
  {
    PublishedUnder(st, s);
    WithoutOthers(st.sessions, id);
  }

  predicate TakesId(st: State, id: string, next: Thread) {
    next == match Published(st, id) case Some(s) => CallClose(s, Ended) case None => Ended
  }

  lemma UnbindTakesOver(st: State, t: nat, id: string, next: Thread)
    requires Inv(st) && t in st.threads && (st.threads[t].Expiring? || st.threads[t].ClosingId?)
    requires TakesId(st, id, next)
    ensures TakesOver(st, Unbind(st, t, Without(st.sessions, id), next), t)
  {
    var st' := Unbind(st, t, Without(st.sessions, id), next);
    forall s | s in st.live && InMap(st, s)
      ensures InMap(st', s) || Owes(next, s)
    {
      if Published(st, id) != Some(s) {
        WithoutKeeps(st, t, id, next, s);
      }
    }
  }

  lemma UnbindIdStep(st: State, t: nat, id: string, next: Thread)
    requires Inv(st) && t in st.threads && (st.threads[t].Expiring? || st.threads[t].ClosingId?)
    requires TakesId(st, id, next)
    ensures Steps(st, Unbind(st, t, Without(st.sessions, id), next), t)
  {
    if Published(st, id).Some? {
      PublishedLive(st, id);
    }
    UnbindTakesOver(st, t, id, next);
    OutsiderKeeps(st, t, Without(st.sessions, id), next);
  }

  lemma ExpiringStep(st: State, t: nat, id: string, s: nat)
    requires Inv(st) && t in st.threads && st.threads[t] == Expiring(id, s)
    ensures Steps(st, if Published(st, id) == Some(s) then Unbind(st, t, Without(st.sessions, id), CallClose(s, Ended))
                else Goto(st, t, Ended), t)
  {
    if Published(st, id) == Some(s) {
      UnbindIdStep(st, t, id, CallClose(s, Ended));
    } else {
      OutsiderGoto(st, t, Ended);
    }
  }

  lemma ClosingAllStep(st: State, t: nat, order: seq<nat>)
    requires Inv(st) && t in st.threads && st.threads[t] == ClosingAll
    requires Enumerates(order, PublishedSessions(st))
    ensures Steps(st, Unbind(st, t, map[], CloseLoop(order, PublishedSessions(st))), t)
  {
    var targets := PublishedSessions(st);
    var next := CloseLoop(order, targets);
    forall s | s in targets
      ensures s in st.live
    {
      var id :| id in st.sessions && Published(st, id).Some? && Published(st, id).value == s;
      PublishedLive(st, id);
    }
    forall s | s in st.live && InMap(st, s)
      ensures Owes(next, s)
    {
      PublishedUnder(st, s);
      assert s in targets;
    }
    OutsiderKeeps(st, t, map[], next);
  }
}
