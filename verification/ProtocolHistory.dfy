/** What a whole run cannot undo: bindings, published entries, closed sessions. */
module ProtocolHistory {
  import opened GoText
  import opened PrimeSteps
  import opened SessionSteps
  import opened Protocol
  import opened ProtocolInvariant
  import opened ProtocolRuns

  // ---- one state after another ----

  /** An entry keeps its id and its Create; once out of the map it stays out. */
  predicate EntriesLater(st: State, st': State) {
    forall e :: e in st.entries ==>
      && e in st'.entries
      && st'.entries[e].id == st.entries[e].id
      && st'.entries[e].owner == st.entries[e].owner
      && (Bound(st', e) ==> Bound(st, e))
  }

  predicate LiveLater(st: State, st': State) {
    forall s :: s in st.live ==>
      && s in st'.live
      && st'.live[s].entry == st.live[s].entry
      && Forward(st.live[s].core, st'.live[s].core)
      && (Done(st, s) ==> Done(st', s))
  }

  predicate Later(st: State, st': State) {
    && EntriesLater(st, st')
    && LiveLater(st, st')
    && (forall t :: t in st.threads ==> t in st'.threads)
    && st'.ttl == st.ttl
  }

  lemma ForwardTransitive(a: Session, b: Session, c: Session)
    requires Forward(a, b) && Forward(b, c)
    ensures Forward(a, c)
  {
    assert a.delivered == b.delivered[..|a.delivered|] == c.delivered[..|a.delivered|];
    if a.prime != b.prime && b.prime != c.prime {
      PrimeForwardTransitive(a.prime, b.prime, c.prime, PrimeDone(a), PrimeDone(b));
    }
  }

  lemma ForwardReflexive(a: Session)
    ensures Forward(a, a)
  {
  }

  lemma LaterTransitive(a: State, b: State, c: State)
    requires Later(a, b) && Later(b, c)
    ensures Later(a, c)
  {
    forall s | s in a.live
      ensures s in c.live && Forward(a.live[s].core, c.live[s].core)
    {
      ForwardTransitive(a.live[s].core, b.live[s].core, c.live[s].core);
    }
  }

  lemma LaterReflexive(st: State)
    ensures Later(st, st)
  {
    forall s | s in st.live
      ensures Forward(st.live[s].core, st.live[s].core)
    {
      ForwardReflexive(st.live[s].core);
    }
  }

  lemma StepLater(st: State, a: Action)
    requires Inv(st) && Enabled(st, a)
    ensures Later(st, Apply(st, a)) && Inv(Apply(st, a))
  {
    ApplyKeepsInv(st, a);
  }

  lemma {:induction false} RunLater(st: State, actions: seq<Action>, end: State)
    requires Inv(st) && Reaches(st, actions, end)
    ensures Later(st, end) && Inv(end)
    decreases |actions|
  {
    if actions == [] {
      LaterReflexive(st);
    } else {
      StepLater(st, actions[0]);
      RunLater(Apply(st, actions[0]), actions[1..], end);
      LaterTransitive(st, Apply(st, actions[0]), end);
    }
  }

  // ---- no ABA ----

  /** An entry that left the map never comes back. */
  lemma RemovedNeverReturns(st: State, actions: seq<Action>, end: State, e: nat)
    requires Reachable(st) && Reaches(st, actions, end)
    requires e in st.entries && !Bound(st, e)
    ensures e in end.entries && !Bound(end, e)
  {
    ReachableInv(st);
    RunLater(st, actions, end);
  }

  /** Who may take entry e out of the map, and why it is that entry. */
  predicate MayUnbind(st: State, th: Thread, t: nat, e: nat)
    requires e in st.entries
  {
    match th
    case Cleanup(x, _) => x == e && st.entries[e].owner == t
    case Expiring(id, s) => id == st.entries[e].id && st.entries[e].session == Some(s)
    case ClosingId(id) => id == st.entries[e].id
    case ClosingAll => true
    case CallClose(s, _) => s in st.live && st.live[s].entry == e && st.live[s].core.closeOnce == Running(t)
    case _ => false
  }

  lemma RemoveEntryOnly(st: State, x: nat, e: nat)
    requires e in st.entries && x in st.entries && Bound(st, e) && x != e
    ensures st.entries[e].id in RemoveEntry(st, x) && RemoveEntry(st, x)[st.entries[e].id] == e
  {
  }

  lemma UnbindingClose(st: State, t: nat, s: nat, next: Thread, e: nat)
    requires Inv(st) && t in st.threads && st.threads[t] == CallClose(s, next)
    requires s in st.live && CloseEnabled(st.live[s].core, t)
    requires e in st.entries && Bound(st, e) && !Bound(StepClose(st, t, s, next), e)
    ensures st.live[s].entry == e && st.live[s].core.closeOnce == Running(t)
  {
    LiveIn(st, s);
    if st.live[s].core.phase.PeerDone? && st.live[s].entry != e {
      RemoveEntryOnly(st, st.live[s].entry, e);
    }
  }

  lemma UnbindingRun(st: State, t: nat, c: Choice, e: nat)
    requires Inv(st) && RunEnabled(st, t, c)
    requires e in st.entries && Bound(st, e) && !Bound(RunStep(st, t, c), e)
    ensures MayUnbind(st, st.threads[t], t, e)
  {
    ThreadIn(st, t);
    match st.threads[t]
    case Cleanup(x, _) =>
      if x != e {
        RemoveEntryOnly(st, x, e);
      }
    case CallClose(s, next) => UnbindingClose(st, t, s, next, e);
    case Expiring(id, s) => WithoutOthers(st.sessions, id);
    case ClosingId(id) => WithoutOthers(st.sessions, id);
    case _ =>
  }

  /** A stale expiry, terminal callback or cleanup leaves a later entry under the same id alone. */
  lemma RemovalsAreOwn(st: State, a: Action, e: nat)
    requires Reachable(st) && Enabled(st, a)
    requires e in st.entries && Bound(st, e) && !Bound(Apply(st, a), e)
    ensures a.Run? && MayUnbind(st, st.threads[a.t], a.t, e)
  {
    ReachableInv(st);
    if a.Run? {
      UnbindingRun(st, a.t, a.choice, e);
    }
  }

  // ---- publication ----

  lemma CloseKeepsEntries(st: State, t: nat, s: nat, next: Thread)
    requires s in st.live && CloseEnabled(st.live[s].core, t)
    ensures StepClose(st, t, s, next).entries == st.entries
  {
  }

  lemma ManagerPublishes(st: State, t: nat, c: Choice, e: nat)
    requires RunEnabled(st, t, c) && OfManager(st.threads[t])
    requires e in st.entries && e in RunStep(st, t, c).entries
    requires st.entries[e].session.None? && RunStep(st, t, c).entries[e].session.Some?
    ensures Bound(st, e)
  {
  }

  /** No entry changes, and no session appears. */
  predicate SameObjects(st: State, st': State) {
    st'.entries == st.entries && st'.live.Keys == st.live.Keys
  }

  lemma RunnerKeepsObjects(st: State, t: nat, c: Choice)
    requires RunEnabled(st, t, c) && OfRunner(st.threads[t])
    ensures SameObjects(st, RunStep(st, t, c))
  {
  }

  lemma PrimeBodyKeepsObjects(st: State, t: nat, c: Choice)
    requires RunEnabled(st, t, c)
    requires var th := st.threads[t]; th.PrimeInside? || th.PrimeLocked? || th.PrimeStarting? || th.PrimeLeaving?
    ensures SameObjects(st, RunStep(st, t, c))
  {
  }

  lemma PrimeKeepsObjects(st: State, t: nat, c: Choice)
    requires RunEnabled(st, t, c) && OfPrime(st.threads[t])
    ensures SameObjects(st, RunStep(st, t, c))
  {
    if OfRunner(st.threads[t]) {
      RunnerKeepsObjects(st, t, c);
    } else if !st.threads[t].PrimeStart? && !st.threads[t].PrimeWaiting? {
      PrimeBodyKeepsObjects(st, t, c);
    }
  }

  lemma SessionKeepsObjects(st: State, t: nat, c: Choice)
    requires RunEnabled(st, t, c)
    requires !OfManager(st.threads[t]) && !OfPrime(st.threads[t]) && !st.threads[t].CallClose?
    ensures SameObjects(st, RunStep(st, t, c))
  {
  }

  lemma PublishingStep(st: State, a: Action, e: nat)
    requires Enabled(st, a) && e in st.entries && e in Apply(st, a).entries
    requires st.entries[e].session.None? && Apply(st, a).entries[e].session.Some?
    ensures Bound(st, e)
  {
    if a.Run? && st.threads[a.t].CallClose? {
      CloseKeepsEntries(st, a.t, st.threads[a.t].session, st.threads[a.t].next);
    } else if a.Run? && OfManager(st.threads[a.t]) {
      ManagerPublishes(st, a.t, a.choice, e);
    } else if a.Run? && OfPrime(st.threads[a.t]) {
      PrimeKeepsObjects(st, a.t, a.choice);
    } else if a.Run? {
      SessionKeepsObjects(st, a.t, a.choice);
    }
  }

  /** What is published later is in the map, continuously, until then. */
  lemma {:induction false} PublishedWasBound(st: State, actions: seq<Action>, end: State, e: nat)
    requires Inv(st) && Reaches(st, actions, end)
    requires e in st.entries && st.entries[e].session.None?
    requires e in end.entries && end.entries[e].session.Some?
    ensures Bound(st, e)
    decreases |actions|
  {
    if actions != [] {
      var next := Apply(st, actions[0]);
      StepLater(st, actions[0]);
      if next.entries[e].session.Some? {
        PublishingStep(st, actions[0], e);
      } else {
        PublishedWasBound(next, actions[1..], end, e);
      }
    }
  }

  /** Between its reservation and its publication: the entry exists and holds no session yet. */
  predicate Reserved(st: State, e: nat, id: string) {
    e in st.entries && st.entries[e].id == id && st.entries[e].session.None?
  }

  /** The Create of entry e returned an answer. */
  predicate Answered(st: State, e: nat) {
    exists t :: t in st.threads && st.threads[t].Created? && st.threads[t].entry == e
  }

  lemma AnsweredPublished(st: State, e: nat)
    requires Inv(st) && Answered(st, e)
    ensures e in st.entries && st.entries[e].session.Some?
  {
    var t :| t in st.threads && st.threads[t].Created? && st.threads[t].entry == e;
    ThreadIn(st, t);
    EntryIn(st, e);
  }

  /** A Create that answers was bound from its reservation on. */
  lemma AnsweredWasBound(st: State, actions: seq<Action>, end: State, e: nat, id: string)
    requires Reachable(st) && Reaches(st, actions, end)
    requires Reserved(st, e, id) && Answered(end, e)
    ensures Bound(st, e)
  {
    ReachableInv(st);
    RunLater(st, actions, end);
    AnsweredPublished(end, e);
    PublishedWasBound(st, actions, end, e);
  }

  /** Of two Creates of one id that overlap between reservation and publication, at most one ever answers. */
  lemma OverlapAnswersOnce(st: State, actions: seq<Action>, end: State, id: string, e: nat, other: nat)
    requires Reachable(st) && Reaches(st, actions, end)
    requires Reserved(st, e, id) && Reserved(st, other, id) && e != other
    ensures !(Answered(end, e) && Answered(end, other))
  {
    if Answered(end, e) && Answered(end, other) {
      AnsweredWasBound(st, actions, end, e, id);
      AnsweredWasBound(st, actions, end, other, id);
    }
  }

  /** The Create of the entry is still running. */
  predicate InFlight(th: Thread, e: nat) {
    EntryOf(th) == Some(e) && !th.Created? && !th.CreateFailed?
  }

  /** A binding without a session belongs to exactly one Create, and that one is still running. */
  lemma NilEntryHasOneCreate(st: State, id: string)
    requires Reachable(st) && id in st.sessions && Published(st, id).None?
    ensures var e := st.sessions[id];
            && e in st.entries && st.entries[e].owner in st.threads && InFlight(st.threads[st.entries[e].owner], e)
            && (forall t :: t in st.threads && EntryOf(st.threads[t]) == Some(e) ==> t == st.entries[e].owner)
  {
    ReachableInv(st);
    MapOf(st);
    var e := st.sessions[id];
    EntryIn(st, e);
    forall t | t in st.threads && EntryOf(st.threads[t]) == Some(e)
      ensures t == st.entries[e].owner
    {
      ThreadIn(st, t);
    }
  }

  // ---- no zombies ----

  lemma TerminalUnpublished(st: State, s: nat, id: string)
    requires Inv(st) && s in st.live && st.live[s].core.phase.Terminal?
    ensures !Bound(st, st.live[s].entry) && Published(st, id) != Some(s)
  {
    LiveIn(st, s);
    MapOf(st);
    if Published(st, id) == Some(s) {
      EntryIn(st, st.sessions[id]);
    }
  }

  lemma TerminalStays(st: State, st': State, s: nat)
    requires Later(st, st') && s in st.live && st.live[s].core.phase.Terminal?
    ensures s in st'.live && st'.live[s].core.phase.Terminal?
  {
    assert Forward(st.live[s].core, st'.live[s].core);
  }

  /** Once the terminal callback of a session has run, no later state has the session in its map. */
  lemma TerminalNeverInMap(st: State, actions: seq<Action>, end: State, s: nat, id: string)
    requires Reachable(st) && Reaches(st, actions, end)
    requires s in st.live && st.live[s].core.phase.Terminal?
    ensures s in end.live && !Bound(end, end.live[s].entry) && Published(end, id) != Some(s)
  {
    ReachableInv(st);
    RunLater(st, actions, end);
    TerminalStays(st, end, s);
    TerminalUnpublished(end, s, id);
  }
}
