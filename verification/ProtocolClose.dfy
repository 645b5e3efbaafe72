/** The steps of `Session.Close` keep the protocol's invariant. */
module ProtocolClose {
  import opened SessionSteps
  import opened Protocol
  import opened ProtocolInvariant
  import opened ProtocolSteps

  /** A thread calling `Close` holds no lock and runs no other once body. */
  lemma CallerHoldsNothing(st: State, t: nat, s: nat, next: Thread)
    requires Inv(st) && t in st.threads && st.threads[t] == CallClose(s, next)
    ensures s in st.live && ThreadOk(st, t) && NextOk(st, s, next) && SessionInv(st.live[s].core)
    ensures st.live[s].core.mu.Held? ==> st.live[s].core.mu.holder != t
    ensures st.live[s].core.primeOnce != Running(t)
  {
    ThreadIn(st, t);
    LiveIn(st, s);
  }

  /** What a step of the closing caller leaves alone. */
  predicate OnlyCloses(core: Session, core': Session, t: nat) {
    core'.mu == core.mu && core'.primeOnce == core.primeOnce && StepOf(core, core', t) && SessionInv(core')
  }

  /** A step inside the body of `closeOnce`. */
  lemma CloseContinues(st: State, t: nat, s: nat, next: Thread, core: Session)
    requires Inv(st) && t in st.threads && st.threads[t] == CallClose(s, next)
    requires s in st.live && OnlyCloses(st.live[s].core, core, t)
    requires core.closeOnce == Running(t) && !core.phase.Terminal?
    ensures Steps(st, Inside(st, t, s, core, CallClose(s, next)), t)
  {
    CallerHoldsNothing(st, t, s, next);
    CallerStays(st, t, s, next, core);
    InsideKeeps(st, t, s, core, CallClose(s, next));
  }

  lemma CallerStays(st: State, t: nat, s: nat, next: Thread, core: Session)
    requires Inv(st) && t in st.threads && st.threads[t] == CallClose(s, next)
    requires s in st.live && core.closeOnce == Running(t) && !st.live[s].core.closeOnce.Finished?
    ensures var st' := Inside(st, t, s, core, CallClose(s, next));
            && ThreadOk(st', t)
            && (EntryOf(next).Some? ==>
                EntryOf(next).value in st.entries && CreateOk(st', EntryOf(next).value, CallClose(s, next)))
  {
    ThreadIn(st, t);
    if EntryOf(next).Some? {
      EntryIn(st, EntryOf(next).value);
    }
  }

  lemma CallerReturns(st: State, t: nat, s: nat, next: Thread, core: Session)
    requires Inv(st) && t in st.threads && st.threads[t] == CallClose(s, next)
    requires s in st.live && core.closeOnce.Finished?
    ensures var st' := Inside(st, t, s, core, next);
            && ThreadOk(st', t)
            && (EntryOf(next).Some? ==> EntryOf(next).value in st.entries && CreateOk(st', EntryOf(next).value, next))
  {
    ThreadIn(st, t);
    if EntryOf(next).Some? {
      EntryIn(st, EntryOf(next).value);
    }
  }

  /** The step that leaves `Close`, as the one who ran the body or as one who waited for it. */
  lemma CloseReturns(st: State, t: nat, s: nat, next: Thread, core: Session)
    requires Inv(st) && t in st.threads && st.threads[t] == CallClose(s, next)
    requires s in st.live && OnlyCloses(st.live[s].core, core, t)
    requires core.closeOnce.Finished? && st.live[s].core.phase.Terminal?
    ensures Steps(st, Inside(st, t, s, core, next), t)
  {
    CallerHoldsNothing(st, t, s, next);
    CallerReturns(st, t, s, next, core);
    InsideKeeps(st, t, s, core, next);
  }

  // ---- the terminal callback ----

  /** An entry belongs to one session. */
  lemma OneSessionEach(st: State, s: nat, x: nat)
    requires Inv(st) && s in st.live && x in st.live && st.live[s].entry == st.live[x].entry
    ensures s == x
  {
    LiveIn(st, s);
    LiveIn(st, x);
  }

  function Removed(st: State, t: nat, s: nat, core: Session, next: Thread): State
    requires s in st.live
  {
    Inside(st, t, s, core, next).(sessions := RemoveEntry(st, st.live[s].entry))
  }

  lemma RemovedFrame(st: State, t: nat, s: nat, core: Session, next: Thread)
    requires Inv(st) && s in st.live && StepOf(st.live[s].core, core, t)
    ensures var st' := Removed(st, t, s, core, next);
            && Evolves(st, st', t) && MapOk(st') && !Bound(st', st.live[s].entry)
            && (forall e :: e in st.entries && e != st.live[s].entry ==> Bound(st', e) == Bound(st, e))
  {
    var st' := Removed(st, t, s, core, next);
    MapOf(st);
    LiveIn(st, s);
    RemoveFrame(st, st.live[s].entry);
    forall x | x in st.live
      ensures StepOf(st.live[x].core, st'.live[x].core, t)
    {
    }
  }

  /** `removeEntry` unbinds that entry and no other. */
  lemma RemoveFrame(st: State, e: nat)
    requires MapOk(st) && e in st.entries
    ensures var st' := st.(sessions := RemoveEntry(st, e));
            && MapOk(st') && !Bound(st', e)
            && (forall x :: x in st.entries && x != e ==> Bound(st', x) == Bound(st, x))
  {
  }

  lemma RemovedAnswers(st: State, t: nat, s: nat, core: Session, next: Thread, x: nat)
    requires Inv(st) && s in st.live && StepOf(st.live[s].core, core, t) && SessionInv(core)
    requires t in st.threads && st.threads[t] == CallClose(s, next)
    requires Granted(core, t, CallClose(s, next), s)
    requires x in st.live
    ensures Answers(Removed(st, t, s, core, CallClose(s, next)), t, x)
  {
    var st' := Removed(st, t, s, core, CallClose(s, next));
    RemovedFrame(st, t, s, core, CallClose(s, next));
    LiveIn(st, x);
    if x != s {
      NothingGranted(st, t, x, CallClose(s, next));
      assert st'.live[x] == st.live[x];
    }
  }

  lemma RemovedDrops(st: State, t: nat, s: nat, core: Session, next: Thread, x: nat)
    requires Inv(st) && s in st.live && StepOf(st.live[s].core, core, t) && core.closeOnce != Fresh
    requires t in st.threads && st.threads[t] == CallClose(s, next)
    requires x in st.live
    ensures NotDropped(st, Removed(st, t, s, core, CallClose(s, next)), t, x)
  {
    RemovedFrame(st, t, s, core, CallClose(s, next));
    LiveIn(st, x);
    if x != s && st.live[x].entry == st.live[s].entry {
      OneSessionEach(st, s, x);
    }
  }

  lemma RemovedCaller(st: State, t: nat, s: nat, core: Session, next: Thread)
    requires Inv(st) && s in st.live && StepOf(st.live[s].core, core, t)
    requires t in st.threads && st.threads[t] == CallClose(s, next)
    requires core.closeOnce == Running(t) && !st.live[s].core.closeOnce.Finished?
    ensures var st' := Removed(st, t, s, core, CallClose(s, next));
            && ThreadOk(st', t)
            && (forall e :: e in st'.entries && st'.entries[e].owner == t ==> EntryOk(st', e))
  {
    var st' := Removed(st, t, s, core, CallClose(s, next));
    RemovedFrame(st, t, s, core, CallClose(s, next));
    ThreadIn(st, t);
    forall e | e in st.entries && st.entries[e].owner == t
      ensures EntryOk(st', e)
    {
      EntryIn(st, e);
    }
  }

  lemma TerminalStep(st: State, t: nat, s: nat, next: Thread, core: Session)
    requires Inv(st) && t in st.threads && st.threads[t] == CallClose(s, next)
    requires s in st.live && OnlyCloses(st.live[s].core, core, t)
    requires core.closeOnce == Running(t)
    ensures Steps(st, Removed(st, t, s, core, CallClose(s, next)), t)
  {
    var st' := Removed(st, t, s, core, CallClose(s, next));
    CallerHoldsNothing(st, t, s, next);
    RemovedFrame(st, t, s, core, CallClose(s, next));
    forall x | x in st'.live
      ensures Answers(st', t, x)
    {
      RemovedAnswers(st, t, s, core, next, x);
    }
    forall x | x in st.live
      ensures NotDropped(st, st', t, x)
    {
      RemovedDrops(st, t, s, core, next, x);
    }
    RemovedCaller(st, t, s, core, next);
    StepKeepsInv(st, st', t);
  }

  // ---- every step of a caller ----

  lemma CloseStep(st: State, t: nat, s: nat, next: Thread)
    requires Inv(st) && t in st.threads && st.threads[t] == CallClose(s, next)
    requires s in st.live && CloseEnabled(st.live[s].core, t)
    ensures Steps(st, StepClose(st, t, s, next), t)
  {
    var core := st.live[s].core;
    CallerHoldsNothing(st, t, s, next);
    if core.closeOnce.Fresh? {
      EnterCloseKeeps(core, t);
      CloseContinues(st, t, s, next, EnterClose(core, t));
    } else if core.closeOnce.Finished? {
      SameInside(st, t, s, next);
      StepOfItself(core, t);
      CloseReturns(st, t, s, next, core);
    } else if Rank(core.phase) < 4 {
      EarlyStep(st, t, s, next);
    } else {
      LateStep(st, t, s, next);
    }
  }

  predicate InBody(st: State, t: nat, s: nat, next: Thread) {
    && t in st.threads && st.threads[t] == CallClose(s, next)
    && s in st.live && CloseEnabled(st.live[s].core, t)
    && st.live[s].core.closeOnce.Running?
  }

  lemma CancelStep(st: State, t: nat, s: nat, next: Thread)
    requires Inv(st) && InBody(st, t, s, next) && st.live[s].core.phase.Entered?
    ensures Steps(st, Inside(st, t, s, Cancel(st.live[s].core), CallClose(s, next)), t)
  {
    CallerHoldsNothing(st, t, s, next);
    CancelKeeps(st.live[s].core, t);
    CloseContinues(st, t, s, next, Cancel(st.live[s].core));
  }

  lemma StopPrimeStep(st: State, t: nat, s: nat, next: Thread)
    requires Inv(st) && InBody(st, t, s, next) && st.live[s].core.phase.Cancelled?
    ensures Steps(st, Inside(st, t, s, StopPrime(st.live[s].core), CallClose(s, next)), t)
  {
    CallerHoldsNothing(st, t, s, next);
    StopPrimeKeeps(st.live[s].core, t);
    CloseContinues(st, t, s, next, StopPrime(st.live[s].core));
  }

  lemma DrainStep(st: State, t: nat, s: nat, next: Thread)
    requires Inv(st) && InBody(st, t, s, next) && st.live[s].core.phase.PrimeStopped?
    ensures Steps(st, Inside(st, t, s, Drain(st.live[s].core), CallClose(s, next)), t)
  {
    CallerHoldsNothing(st, t, s, next);
    DrainKeeps(st.live[s].core, t);
    CloseContinues(st, t, s, next, Drain(st.live[s].core));
  }

  /** Up to the critical section under `stateMu`. */
  lemma EarlyStep(st: State, t: nat, s: nat, next: Thread)
    requires Inv(st) && InBody(st, t, s, next) && Rank(st.live[s].core.phase) < 4
    ensures Steps(st, StepClose(st, t, s, next), t)
  {
    match st.live[s].core.phase
    case NotClosing =>
      CallerHoldsNothing(st, t, s, next);
      assert false;
    case Entered => CancelStep(st, t, s, next);
    case Cancelled => StopPrimeStep(st, t, s, next);
    case PrimeStopped => DrainStep(st, t, s, next);
  }

  lemma CloseRecorderStep(st: State, t: nat, s: nat, next: Thread)
    requires Inv(st) && InBody(st, t, s, next) && st.live[s].core.phase.Drained?
    ensures Steps(st, Inside(st, t, s, CloseRecorder(st.live[s].core), CallClose(s, next)), t)
  {
    CallerHoldsNothing(st, t, s, next);
    CloseRecorderKeeps(st.live[s].core, t);
    CloseContinues(st, t, s, next, CloseRecorder(st.live[s].core));
  }

  lemma ClosePeerStep(st: State, t: nat, s: nat, next: Thread)
    requires Inv(st) && InBody(st, t, s, next) && st.live[s].core.phase.RecorderDone?
    ensures Steps(st, Inside(st, t, s, ClosePeer(st.live[s].core), CallClose(s, next)), t)
  {
    CallerHoldsNothing(st, t, s, next);
    ClosePeerKeeps(st.live[s].core, t);
    CloseContinues(st, t, s, next, ClosePeer(st.live[s].core));
  }

  lemma RunTerminalStep(st: State, t: nat, s: nat, next: Thread)
    requires Inv(st) && InBody(st, t, s, next) && st.live[s].core.phase.PeerDone?
    ensures Steps(st, Removed(st, t, s, RunTerminal(st.live[s].core), CallClose(s, next)), t)
  {
    CallerHoldsNothing(st, t, s, next);
    RunTerminalKeeps(st.live[s].core, t);
    TerminalStep(st, t, s, next, RunTerminal(st.live[s].core));
  }

  lemma FinishCloseStep(st: State, t: nat, s: nat, next: Thread)
    requires Inv(st) && InBody(st, t, s, next) && st.live[s].core.phase.Terminal?
    ensures Steps(st, Inside(st, t, s, FinishClose(st.live[s].core), next), t)
  {
    CallerHoldsNothing(st, t, s, next);
    FinishCloseKeeps(st.live[s].core, t);
    CloseReturns(st, t, s, next, FinishClose(st.live[s].core));
  }

  /** The recorder and the peer connection. */
  lemma PartsStep(st: State, t: nat, s: nat, next: Thread)
    requires Inv(st) && InBody(st, t, s, next)
    requires st.live[s].core.phase.Drained? || st.live[s].core.phase.RecorderDone?
    ensures Steps(st, StepClose(st, t, s, next), t)
  {
    if st.live[s].core.phase.Drained? {
      CloseRecorderStep(st, t, s, next);
    } else {
      ClosePeerStep(st, t, s, next);
    }
  }

  lemma CallbackIs(st: State, t: nat, s: nat, next: Thread)
    requires InBody(st, t, s, next) && st.live[s].core.phase.PeerDone?
    ensures StepClose(st, t, s, next) == Removed(st, t, s, RunTerminal(st.live[s].core), CallClose(s, next))
  {
  }

  lemma FinishIs(st: State, t: nat, s: nat, next: Thread)
    requires InBody(st, t, s, next) && st.live[s].core.phase.Terminal?
    ensures StepClose(st, t, s, next) == Inside(st, t, s, FinishClose(st.live[s].core), next)
  {
  }

  /** The terminal callback, and the end of the once body. */
  lemma LastStep(st: State, t: nat, s: nat, next: Thread)
    requires Inv(st) && InBody(st, t, s, next)
    requires st.live[s].core.phase.PeerDone? || st.live[s].core.phase.Terminal?
    ensures Steps(st, StepClose(st, t, s, next), t)
  {
    if st.live[s].core.phase.PeerDone? {
      CallbackIs(st, t, s, next);
      RunTerminalStep(st, t, s, next);
    } else {
      FinishIs(st, t, s, next);
      FinishCloseStep(st, t, s, next);
    }
  }

  /** From the recorder on. */
  lemma LateStep(st: State, t: nat, s: nat, next: Thread)
    requires Inv(st) && InBody(st, t, s, next) && Rank(st.live[s].core.phase) >= 4
    ensures Steps(st, StepClose(st, t, s, next), t)
  {
    if Rank(st.live[s].core.phase) <= 5 {
      PartsStep(st, t, s, next);
    } else {
      LastStep(st, t, s, next);
    }
  }
}
