/**
 * A call of `Close` that nobody interferes with is a run of the protocol, and comes to what the object's method does.
 */
module ProtocolAlone {
  import opened SessionSteps
  import opened SessionSequences
  import opened Protocol

  predicate Advanced(core: Session, next: Session) {
    Rank(next.phase) == Rank(core.phase) + 1 && next.closeOnce == core.closeOnce && next.mu == core.mu
  }

  lemma BodyAdvancesEarly(core: Session)
    requires core.phase.Entered? || core.phase.Cancelled? || core.phase.PrimeStopped?
    ensures Advanced(core, BodyNext(core))
  {
    if core.phase.Entered? {
      assert Advanced(core, Cancel(core));
    } else if core.phase.Cancelled? {
      assert Advanced(core, StopPrime(core));
    } else {
      assert Advanced(core, Drain(core));
    }
  }

  lemma BodyAdvancesLate(core: Session)
    requires core.phase.Drained? || core.phase.RecorderDone? || core.phase.PeerDone?
    ensures Advanced(core, BodyNext(core))
  {
    if core.phase.Drained? {
      assert Advanced(core, CloseRecorder(core));
    } else if core.phase.RecorderDone? {
      assert Advanced(core, ClosePeer(core));
    } else {
      assert Advanced(core, RunTerminal(core));
    }
  }

  lemma BodyAdvances(core: Session)
    requires !core.phase.NotClosing? && !core.phase.Terminal?
    ensures Advanced(core, BodyNext(core))
  {
    if core.phase.Entered? || core.phase.Cancelled? || core.phase.PrimeStopped? {
      BodyAdvancesEarly(core);
    } else {
      BodyAdvancesLate(core);
    }
  }

  /** What the rest of the body leaves behind. */
  function BodyEnd(core: Session): Session
    requires !core.phase.NotClosing?
    decreases 8 - Rank(core.phase)
  {
    if core.phase.Terminal? then FinishClose(core)
    else
      BodyAdvances(core);
      BodyEnd(BodyNext(core))
  }

  lemma BodyIsClosed(core: Session, t: nat)
    requires Idle(core) && core.closeOnce.Fresh?
    ensures BodyEnd(EnterClose(core, t)) == Closed(core)
  {
    var drained := Stopped(core, t);
    ClosedIsTheSteps(core, t);
    assert BodyEnd(EnterClose(core, t)) == BodyEnd(Cancel(EnterClose(core, t)));
    assert BodyEnd(Cancel(EnterClose(core, t))) == BodyEnd(StopPrime(Cancel(EnterClose(core, t))));
    assert BodyEnd(StopPrime(Cancel(EnterClose(core, t)))) == BodyEnd(drained);
    EndedIsTheRest(drained);
  }

  lemma EndedIsTheRest(core: Session)
    requires core.phase.Drained?
    ensures BodyEnd(core) == SessionSequences.Ended(core)
  {
    var recorded := CloseRecorder(core);
    assert BodyEnd(core) == BodyEnd(recorded) == BodyEnd(ClosePeer(recorded));
    assert BodyEnd(ClosePeer(recorded)) == BodyEnd(RunTerminal(ClosePeer(recorded)));
  }

  /** Thread t is in the body of session s's `Close`, and `stateMu` is free. */
  predicate AloneIn(st: State, t: nat, s: nat, next: Thread) {
    && t in st.threads && st.threads[t] == CallClose(s, next)
    && s in st.live && st.live[s].core.closeOnce == Running(t) && st.live[s].core.mu.Free?
    && !st.live[s].core.phase.NotClosing?
  }

  const ANY := Choice(true, false, 0, [])

  /** The state after the whole call. */
  function After(st: State, t: nat, s: nat, next: Thread, core: Session, sessions: map<string, nat>): State
    requires s in st.live
  {
    st.(live := st.live[s := st.live[s].(core := core)], threads := st.threads[t := next], sessions := sessions)
  }

  lemma SameStep(st: State, t: nat, s: nat, next: Thread)
    requires s in st.live && st.live[s].core.closeOnce.Running? && CloseEnabled(st.live[s].core, t)
    requires var phase := st.live[s].core.phase; !phase.NotClosing? && !phase.PeerDone? && !phase.Terminal?
    ensures StepClose(st, t, s, next) == Inside(st, t, s, BodyNext(st.live[s].core), CallClose(s, next))
  {
  }

  /** One step of the body, alone. */
  lemma AloneStep(st: State, t: nat, s: nat, next: Thread)
    requires AloneIn(st, t, s, next) && !st.live[s].core.phase.Terminal?
    ensures RunEnabled(st, t, ANY)
    ensures var core := st.live[s].core;
            var st' := After(st, t, s, CallClose(s, next), BodyNext(core),
                             if core.phase.PeerDone? then RemoveEntry(st, st.live[s].entry) else st.sessions);
            RunStep(st, t, ANY) == st' && AloneIn(st', t, s, next)
  {
    BodyAdvances(st.live[s].core);
    if !st.live[s].core.phase.PeerDone? {
      SameStep(st, t, s, next);
    }
  }

  lemma AfterTwice(st: State, t: nat, s: nat, a: Thread, b: Thread, c: Session, d: Session, e: map<string, nat>,
      f: map<string, nat>)
    requires s in st.live
    ensures After(After(st, t, s, a, c, e), t, s, b, d, f) == After(st, t, s, b, d, f)
  {
    assert st.threads[t := a][t := b] == st.threads[t := b];
    assert st.live[s := st.live[s].(core := c)][s := st.live[s].(core := d)] == st.live[s := st.live[s].(core := d)];
  }

  lemma FinishAlone(st: State, t: nat, s: nat, next: Thread)
    requires AloneIn(st, t, s, next) && st.live[s].core.phase.Terminal?
    ensures RunEnabled(st, t, ANY)
    ensures RunStep(st, t, ANY) == After(st, t, s, next, BodyEnd(st.live[s].core), st.sessions)
  {
  }

  lemma RunFirst(st: State, a: Action, rest: seq<Action>, end: State)
    requires Enabled(st, a) && Reaches(Apply(st, a), rest, end)
    ensures Reaches(st, [a] + rest, end)
  {
    assert ([a] + rest)[1..] == rest;
  }

  lemma {:induction false} BodyAlone(st: State, t: nat, s: nat, next: Thread) returns (actions: seq<Action>)
    requires AloneIn(st, t, s, next)
    ensures Reaches(st, actions, After(st, t, s, next, BodyEnd(st.live[s].core),
                                       if st.live[s].core.phase.Terminal? then st.sessions
                                       else RemoveEntry(st, st.live[s].entry)))
    decreases 8 - Rank(st.live[s].core.phase)
  {
    var core := st.live[s].core;
    if core.phase.Terminal? {
      FinishAlone(st, t, s, next);
      RunFirst(st, Run(t, ANY), [], RunStep(st, t, ANY));
      actions := [Run(t, ANY)] + [];
    } else {
      AloneStep(st, t, s, next);
      BodyAdvances(core);
      var st' := RunStep(st, t, ANY);
      var rest := BodyAlone(st', t, s, next);
      var sessions := if core.phase.PeerDone? then st'.sessions else RemoveEntry(st', st'.live[s].entry);
      AfterTwice(st, t, s, CallClose(s, next), next, st'.live[s].core, BodyEnd(core), st'.sessions, sessions);
      RunFirst(st, Run(t, ANY), rest, After(st, t, s, next, BodyEnd(core), sessions));
      actions := [Run(t, ANY)] + rest;
    }
  }

  /**
   * An uninterrupted `Close` exists as a run: it ends in exactly the state that the method of the session object
   * promises, takes exactly the session's own entry out of the map, and touches nothing else.
   */
  lemma CloseAlone(st: State, t: nat, s: nat, next: Thread) returns (actions: seq<Action>)
    requires t in st.threads && st.threads[t] == CallClose(s, next)
    requires s in st.live && Idle(st.live[s].core) && st.live[s].core.closeOnce.Fresh?
    ensures Reaches(st, actions, After(st, t, s, next, Closed(st.live[s].core), RemoveEntry(st, st.live[s].entry)))
  {
    var core := st.live[s].core;
    var st' := RunStep(st, t, ANY);
    var stay := CallClose(s, next);
    assert st' == After(st, t, s, stay, EnterClose(core, t), st.sessions);
    var rest := BodyAlone(st', t, s, next);
    BodyIsClosed(core, t);
    AfterTwice(st, t, s, stay, next, EnterClose(core, t), Closed(core), st.sessions, RemoveEntry(st, st.live[s].entry));
    actions := [Run(t, ANY)] + rest;
    assert actions[1..] == rest;
  }
}
