/**
 * `CloseAll` and `Close` as fences: what they found is closed when they return, and no Create they overtook answers.
 */
module ProtocolFence {
  import opened GoText
  import opened Protocol
  import opened ProtocolInvariant
  import opened ProtocolRuns
  import opened ProtocolHistory

  ghost predicate AllDone(st: State, targets: set<nat>) {
    forall s :: s in targets ==> Done(st, s)
  }

  /** Thread t is still working through the sessions it found, or has closed them all. */
  ghost predicate Fencing(st: State, t: nat, targets: set<nat>) {
    t in st.threads &&
    match st.threads[t]
    case CloseLoop(_, found) => found == targets
    case CallClose(_, CloseLoop(_, found)) => found == targets
    case Ended => AllDone(st, targets)
    case _ => false
  }

  /** The critical section of `CloseAll`. */
  predicate Clears(st: State, t: nat, c: Choice) {
    RunEnabled(st, t, c) && st.threads[t].ClosingAll?
  }

  lemma OwnFencingStep(st: State, t: nat, c: Choice, targets: set<nat>)
    requires Inv(st) && Fencing(st, t, targets) && RunEnabled(st, t, c)
    ensures Fencing(RunStep(st, t, c), t, targets)
  {
    ThreadIn(st, t);
    match st.threads[t]
    case CallClose(s, next) => CallerGoes(st, t, s, next);
    case _ =>
  }

  lemma CallerGoes(st: State, t: nat, s: nat, next: Thread)
    requires s in st.live && CloseEnabled(st.live[s].core, t)
    ensures t in StepClose(st, t, s, next).threads
    ensures StepClose(st, t, s, next).threads[t] in {CallClose(s, next), next}
  {
  }

  lemma OtherFencingStep(st: State, st': State, t: nat, targets: set<nat>)
    requires Fencing(st, t, targets) && Later(st, st')
    requires t in st'.threads && st'.threads[t] == st.threads[t]
    ensures Fencing(st', t, targets)
  {
  }

  lemma FencingStep(st: State, a: Action, t: nat, targets: set<nat>)
    requires Inv(st) && Fencing(st, t, targets) && Enabled(st, a)
    ensures Fencing(Apply(st, a), t, targets)
  {
    if a.t == t {
      OwnFencingStep(st, t, a.choice, targets);
    } else {
      ApplyKeepsInv(st, a);
      StepLater(st, a);
      OtherFencingStep(st, Apply(st, a), t, targets);
    }
  }

  lemma {:induction false} FencingRun(st: State, actions: seq<Action>, end: State, t: nat, targets: set<nat>)
    requires Inv(st) && Fencing(st, t, targets) && Reaches(st, actions, end)
    ensures Fencing(end, t, targets)
    decreases |actions|
  {
    if actions != [] {
      FencingStep(st, actions[0], t, targets);
      ApplyKeepsInv(st, actions[0]);
      FencingRun(Apply(st, actions[0]), actions[1..], end, t, targets);
    }
  }

  /** Every session published when `CloseAll` took the map is closed when it returns. */
  lemma CloseAllCloses(st: State, t: nat, c: Choice, actions: seq<Action>, end: State, id: string)
    requires Reachable(st) && Clears(st, t, c)
    requires Reaches(RunStep(st, t, c), actions, end)
    requires t in end.threads && end.threads[t].Ended?
    requires Published(st, id).Some?
    ensures Done(end, Published(st, id).value)
  {
    ReachableInv(st);
    ApplyKeepsInv(st, Run(t, c));
    var targets := PublishedSessions(st);
    FencingRun(RunStep(st, t, c), actions, end, t, targets);
    assert Published(st, id).value in targets;
  }

  lemma ClearedUnbinds(st: State, t: nat, c: Choice, e: nat)
    requires Inv(st) && Clears(st, t, c) && e in st.entries
    ensures var st' := RunStep(st, t, c);
            Inv(st') && e in st'.entries && !Bound(st', e) && st'.entries[e] == st.entries[e] && st'.sessions == map[]
  {
    ApplyKeepsInv(st, Run(t, c));
  }

  lemma UnboundNeverAnswers(st: State, actions: seq<Action>, end: State, e: nat)
    requires Inv(st) && Reaches(st, actions, end)
    requires e in st.entries && st.entries[e].session.None? && !Bound(st, e)
    ensures e in end.entries && end.entries[e].session.None? && !Bound(end, e) && !Answered(end, e)
  {
    RunLater(st, actions, end);
    if end.entries[e].session.Some? {
      PublishedWasBound(st, actions, end, e);
    }
    if Answered(end, e) {
      AnsweredPublished(end, e);
    }
  }

  /** The Create of entry e returned an error, and whatever session it had made is closed. */
  predicate FailedClosed(st: State, e: nat)
    requires e in st.entries
  {
    var owner := st.entries[e].owner;
    && owner in st.threads && st.threads[owner].CreateFailed?
    && (forall s :: s in st.live && st.live[s].entry == e ==> Done(st, s))
  }

  lemma UnpublishedFails(st: State, e: nat)
    requires Inv(st) && e in st.entries && st.entries[e].session.None?
    requires st.entries[e].owner in st.threads
    ensures InFlight(st.threads[st.entries[e].owner], e) || FailedClosed(st, e)
  {
    EntryIn(st, e);
    forall s | s in st.live && st.live[s].entry == e && st.threads[st.entries[e].owner].CreateFailed?
      ensures Done(st, s)
    {
      LiveIn(st, s);
    }
  }

  /**
   * A Create that had reserved but not published when `CloseAll` took the map never answers: its entry stays out of
   * the map, and once it returns it has failed and its session is closed.
   */
  lemma CloseAllFences(st: State, t: nat, c: Choice, actions: seq<Action>, end: State, id: string, e: nat)
    requires Reachable(st) && Clears(st, t, c)
    requires Reaches(RunStep(st, t, c), actions, end)
    requires Reserved(st, e, id)
    ensures e in end.entries && !Bound(end, e) && end.entries[e].session.None? && !Answered(end, e)
    ensures end.entries[e].owner in end.threads
    ensures InFlight(end.threads[end.entries[e].owner], e) || FailedClosed(end, e)
  {
    ReachableInv(st);
    ClearedUnbinds(st, t, c, e);
    UnboundNeverAnswers(RunStep(st, t, c), actions, end, e);
    RunLater(RunStep(st, t, c), actions, end);
    EntryIn(end, e);
    UnpublishedFails(end, e);
  }

  // ---- Close of one id ----

  /** The critical section of `Manager.Close`. */
  predicate Frees(st: State, t: nat, c: Choice, id: string) {
    RunEnabled(st, t, c) && st.threads[t] == ClosingId(id)
  }

  /** The bindings of all other ids are the same. */
  ghost predicate OthersBound(sessions: map<string, nat>, sessions': map<string, nat>, id: string) {
    forall i :: i != id ==>
      (i in sessions' <==> i in sessions) && (i in sessions ==> i in sessions' && sessions'[i] == sessions[i])
  }

  /** `Close(id)` frees exactly that id, whether its entry holds a session or its Create is still running. */
  lemma CloseIdUnbinds(st: State, t: nat, c: Choice, id: string)
    requires Frees(st, t, c, id)
    ensures var st' := RunStep(st, t, c);
            && id !in st'.sessions && OthersBound(st.sessions, st'.sessions, id)
            && st'.entries == st.entries && st'.live == st.live
            && t in st'.threads && (st'.threads[t].Ended? <==> Published(st, id).None?)
  {
  }

  lemma FreedEntry(st: State, t: nat, c: Choice, id: string, e: nat)
    requires Inv(st) && Frees(st, t, c, id) && e in st.entries && st.entries[e].id == id
    ensures var st' := RunStep(st, t, c);
            Inv(st') && e in st'.entries && !Bound(st', e) && st'.entries[e] == st.entries[e]
  {
    ApplyKeepsInv(st, Run(t, c));
    CloseIdUnbinds(st, t, c, id);
  }

  /**
   * A Create of the id that had reserved but not published when `Close(id)` took the binding never answers: its entry
   * stays out of the map, and once it returns it has failed and its session is closed.
   */
  lemma CloseIdFences(st: State, t: nat, c: Choice, actions: seq<Action>, end: State, id: string, e: nat)
    requires Reachable(st) && Frees(st, t, c, id)
    requires Reaches(RunStep(st, t, c), actions, end)
    requires Reserved(st, e, id)
    ensures e in end.entries && !Bound(end, e) && end.entries[e].session.None? && !Answered(end, e)
    ensures end.entries[e].owner in end.threads
    ensures InFlight(end.threads[end.entries[e].owner], e) || FailedClosed(end, e)
  {
    ReachableInv(st);
    FreedEntry(st, t, c, id, e);
    UnboundNeverAnswers(RunStep(st, t, c), actions, end, e);
    RunLater(RunStep(st, t, c), actions, end);
    EntryIn(end, e);
    UnpublishedFails(end, e);
  }

  /** Thread t is in its call of the session's `Close`, or that call has returned. */
  predicate ClosingOne(st: State, t: nat, s: nat) {
    t in st.threads && (st.threads[t] == CallClose(s, Ended) || (st.threads[t].Ended? && Done(st, s)))
  }

  lemma OwnClosingStep(st: State, t: nat, c: Choice, s: nat)
    requires Inv(st) && ClosingOne(st, t, s) && RunEnabled(st, t, c)
    ensures ClosingOne(RunStep(st, t, c), t, s)
  {
    LiveIn(st, s);
  }

  lemma {:induction false} ClosingOneRun(st: State, actions: seq<Action>, end: State, t: nat, s: nat)
    requires Inv(st) && ClosingOne(st, t, s) && Reaches(st, actions, end)
    ensures ClosingOne(end, t, s)
    decreases |actions|
  {
    if actions != [] {
      var a, next := actions[0], Apply(st, actions[0]);
      StepLater(st, a);
      if a.t == t {
        OwnClosingStep(st, t, a.choice, s);
      } else {
        ApplyKeepsInv(st, a);
        assert next.threads[t] == st.threads[t];
      }
      ClosingOneRun(next, actions[1..], end, t, s);
    }
  }

  /** The session that `Close(id)` found is closed to the end when the call returns. */
  lemma CloseIdCloses(st: State, t: nat, c: Choice, actions: seq<Action>, end: State, id: string, s: nat)
    requires Reachable(st) && Frees(st, t, c, id) && Published(st, id) == Some(s)
    requires Reaches(RunStep(st, t, c), actions, end)
    requires t in end.threads && end.threads[t].Ended?
    ensures Done(end, s)
  {
    ReachableInv(st);
    ApplyKeepsInv(st, Run(t, c));
    ClosingOneRun(RunStep(st, t, c), actions, end, t, s);
  }

  /** An expiry takes out and closes exactly its own session; with another session, or none, it does nothing. */
  lemma ExpiryExactly(st: State, t: nat, c: Choice, actions: seq<Action>, end: State, id: string, s: nat)
    requires Reachable(st) && RunEnabled(st, t, c) && st.threads[t] == Expiring(id, s)
    requires Reaches(RunStep(st, t, c), actions, end)
    requires t in end.threads && end.threads[t].Ended?
    ensures OthersBound(st.sessions, RunStep(st, t, c).sessions, id)
    ensures Published(st, id) == Some(s) ==> id !in RunStep(st, t, c).sessions && Done(end, s)
    ensures Published(st, id) != Some(s) ==> RunStep(st, t, c) == Goto(st, t, Thread.Ended)
  {
    ReachableInv(st);
    ApplyKeepsInv(st, Run(t, c));
    if Published(st, id) == Some(s) {
      ClosingOneRun(RunStep(st, t, c), actions, end, t, s);
    }
  }
}
