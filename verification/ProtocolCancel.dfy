/** What `cancel()` stops: with `stateMu` free, nothing is created, stored or armed any more. */
module ProtocolCancel {
  import opened SessionSteps
  import opened Protocol
  import opened ProtocolInvariant
  import opened ProtocolRuns

  /** The context is cancelled, and nobody is between a check of it and what that check allows. */
  predicate Barren(c: Session) {
    c.cancelled && c.mu.Free?
  }

  /** No recorder, no prime's cancel function, no stored timer, no armed grace timer beyond those there are. */
  predicate NothingNew(c: Session, c': Session) {
    && c'.created == c.created
    && c'.prime.stored == c.prime.stored
    && (c'.expiryStored ==> c.expiryStored)
    && (c'.graceStored.Some? ==> c'.graceStored == c.graceStored)
    && c'.graceArmed <= c.graceArmed
  }

  predicate Ends(c: Session, c': Session) {
    Barren(c) ==> Barren(c') && NothingNew(c, c')
  }

  predicate EndsFor(st: State, st': State, x: nat)
    requires x in st.live
  {
    x in st'.live && Ends(st.live[x].core, st'.live[x].core)
  }

  lemma InsideEnds(st: State, t: nat, s: nat, core: Session, next: Thread, x: nat)
    requires s in st.live && x in st.live && (x == s ==> Ends(st.live[s].core, core))
    ensures EndsFor(st, Inside(st, t, s, core, next), x)
  {
  }

  lemma DrainEnds(core: Session)
    ensures Ends(core, Drain(core))
  {
  }

  lemma CloseRecorderEnds(core: Session)
    requires core.phase.Drained?
    ensures Ends(core, CloseRecorder(core))
  {
  }

  lemma LastEnds(core: Session)
    requires core.phase.RecorderDone? || core.phase.PeerDone? || core.phase.Terminal?
    ensures Ends(core, BodyNext(core))
  {
    match core.phase
    case RecorderDone => assert Ends(core, ClosePeer(core));
    case PeerDone => assert Ends(core, RunTerminal(core));
    case Terminal => assert Ends(core, FinishClose(core));
  }

  lemma BodyEnds(core: Session)
    ensures Ends(core, BodyNext(core))
  {
    match core.phase
    case NotClosing =>
    case Entered => assert Ends(core, Cancel(core));
    case Cancelled => assert Ends(core, StopPrime(core));
    case PrimeStopped => DrainEnds(core);
    case Drained(_) => CloseRecorderEnds(core);
    case _ => LastEnds(core);
  }

  lemma CloseEnds(st: State, t: nat, s: nat, next: Thread, x: nat)
    requires s in st.live && CloseEnabled(st.live[s].core, t) && x in st.live
    ensures EndsFor(st, StepClose(st, t, s, next), x)
  {
    var core := st.live[s].core;
    var step := StepClose(st, t, s, next);
    if core.closeOnce.Fresh? {
      InsideEnds(st, t, s, EnterClose(core, t), CallClose(s, next), x);
    } else if core.closeOnce.Running? {
      var after := if core.phase.Terminal? then next else CallClose(s, next);
      BodyEnds(core);
      InsideEnds(st, t, s, BodyNext(core), after, x);
      assert step.live == Inside(st, t, s, BodyNext(core), after).live;
    }
  }

  lemma ManagerEnds(st: State, t: nat, c: Choice, x: nat)
    requires Inv(st) && RunEnabled(st, t, c) && x in st.live
    requires OfManager(st.threads[t]) && !st.threads[t].StoringTtl?
    ensures EndsFor(st, RunStep(st, t, c), x)
  {
  }

  /** Second halves of critical sections: their holder is still inside. */
  lemma HolderEnds(st: State, t: nat, c: Choice, x: nat)
    requires Inv(st) && RunEnabled(st, t, c) && x in st.live
    requires var th := st.threads[t]; th.TrackLocked? || th.PeerLocked? || th.StoringTtl? || th.PrimeLocked?
    ensures EndsFor(st, RunStep(st, t, c), x)
  {
    ThreadIn(st, t);
    if st.threads[t].session == x {
      assert st.live[x].core.mu.Held?;
    }
  }

  lemma TrackEnds(st: State, t: nat, c: Choice, x: nat)
    requires RunEnabled(st, t, c) && x in st.live
    requires var th := st.threads[t]; th.TrackStart? || th.Recording? || th.GraceFired?
    ensures EndsFor(st, RunStep(st, t, c), x)
  {
  }

  lemma PeerEnds(st: State, t: nat, c: Choice, x: nat)
    requires RunEnabled(st, t, c) && x in st.live
    requires var th := st.threads[t]; th.PeerStart? || th.PeerAfter? || th.PeerStopping?
    ensures EndsFor(st, RunStep(st, t, c), x)
  {
  }

  lemma PrimeEnds(st: State, t: nat, c: Choice, x: nat)
    requires RunEnabled(st, t, c) && x in st.live
    requires var th := st.threads[t]; th.PrimeStart? || th.PrimeWaiting? || th.PrimeInside?
    ensures EndsFor(st, RunStep(st, t, c), x)
  {
  }

  lemma PrimeLastEnds(st: State, t: nat, c: Choice, x: nat)
    requires RunEnabled(st, t, c) && x in st.live
    requires var th := st.threads[t]; th.PrimeStarting? || th.PrimeLeaving?
    ensures EndsFor(st, RunStep(st, t, c), x)
  {
  }

  lemma RunnerEnds(st: State, t: nat, c: Choice, x: nat)
    requires RunEnabled(st, t, c) && x in st.live
    requires st.threads[t].PrimeTop? || st.threads[t].PrimeSelect? || st.threads[t].PrimeTicked?
    ensures EndsFor(st, RunStep(st, t, c), x)
  {
  }

  lemma WriterEnds(st: State, t: nat, c: Choice, x: nat)
    requires RunEnabled(st, t, c) && x in st.live && st.threads[t].PrimeWriting?
    ensures EndsFor(st, RunStep(st, t, c), x)
  {
  }

  lemma RunEnds(st: State, t: nat, c: Choice, x: nat)
    requires Inv(st) && RunEnabled(st, t, c) && x in st.live
    ensures EndsFor(st, RunStep(st, t, c), x)
  {
    var th := st.threads[t];
    if th.CallClose? {
      CloseEnds(st, t, th.session, th.next, x);
    } else if th.TrackLocked? || th.PeerLocked? || th.StoringTtl? || th.PrimeLocked? {
      HolderEnds(st, t, c, x);
    } else if OfManager(th) {
      ManagerEnds(st, t, c, x);
    } else if th.PrimeWriting? {
      WriterEnds(st, t, c, x);
    } else if OfRunner(th) {
      RunnerEnds(st, t, c, x);
    } else if th.PrimeStart? || th.PrimeWaiting? || th.PrimeInside? {
      PrimeEnds(st, t, c, x);
    } else if OfPrime(th) {
      PrimeLastEnds(st, t, c, x);
    } else if th.TrackStart? || th.Recording? || th.GraceFired? {
      TrackEnds(st, t, c, x);
    } else {
      PeerEnds(st, t, c, x);
    }
  }

  lemma EnvironmentEnds(st: State, a: Action, x: nat)
    requires Enabled(st, a) && !a.Run? && x in st.live
    ensures EndsFor(st, Apply(st, a), x)
  {
  }

  lemma {:induction false} EndsRun(st: State, actions: seq<Action>, end: State, s: nat)
    requires Inv(st) && Reaches(st, actions, end) && s in st.live && Barren(st.live[s].core)
    ensures s in end.live && Barren(end.live[s].core) && NothingNew(st.live[s].core, end.live[s].core)
    decreases |actions|
  {
    if actions != [] {
      if actions[0].Run? {
        RunEnds(st, actions[0].t, actions[0].choice, s);
      } else {
        EnvironmentEnds(st, actions[0], s);
      }
      ApplyKeepsInv(st, actions[0]);
      EndsRun(Apply(st, actions[0]), actions[1..], end, s);
    }
  }

  /**
   * From `cancel()` on, whatever the interleaving: with `stateMu` free, no recorder is created, no prime's cancel
   * function and no timer is stored, and no grace timer armed, in any later state.
   */
  lemma CancelledStartsNothing(st: State, actions: seq<Action>, end: State, s: nat)
    requires Reachable(st) && Reaches(st, actions, end)
    requires s in st.live && st.live[s].core.cancelled && st.live[s].core.mu.Free?
    ensures s in end.live && end.live[s].core.mu.Free? && NothingNew(st.live[s].core, end.live[s].core)
  {
    ReachableInv(st);
    EndsRun(st, actions, end, s);
  }
}
