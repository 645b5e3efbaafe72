/** What single steps leave alone: the timers and the delivered states of a session, entries, threads, new sessions. */
module ProtocolFrames {
  import opened SessionSteps
  import opened Protocol
  import opened ProtocolInvariant
  import opened ProtocolRuns
  import opened ProtocolHistory
  import opened ProtocolAlone

  /** A step of a thread fires no expiry timer, and starts only the one of its own Create. */
  predicate Unfired(c: Session, c': Session) {
    c'.expiryFired == c.expiryFired && (c'.expiryArmed ==> c.expiryArmed)
  }

  /** No peer state is delivered, and no grace timer disarmed before `Close` has been through `stateMu`. */
  predicate Undelivered(c: Session, c': Session) {
    && c'.delivered == c.delivered && c'.generation == c.generation
    && (c.graceArmed <= c'.graceArmed || Rank(c.phase) >= 3)
  }

  predicate Quiet(c: Session, c': Session) {
    Unfired(c, c') && Undelivered(c, c')
  }

  lemma InsideQuiet(st: State, t: nat, s: nat, core: Session, next: Thread, x: nat)
    requires s in st.live && x in st.live && Quiet(st.live[s].core, core)
    ensures x in Inside(st, t, s, core, next).live && Quiet(st.live[x].core, Inside(st, t, s, core, next).live[x].core)
  {
  }

  lemma StopIsQuiet(core: Session)
    requires core.phase.Entered? || core.phase.Cancelled? || core.phase.PrimeStopped?
    ensures Quiet(core, BodyNext(core))
  {
    match core.phase
    case Entered => assert Quiet(core, Cancel(core));
    case Cancelled => assert Quiet(core, StopPrime(core));
    case PrimeStopped => assert Quiet(core, Drain(core));
  }

  lemma BodyIsQuiet(core: Session)
    requires !core.phase.NotClosing? && !core.phase.PeerDone? && !core.phase.Terminal?
    ensures Quiet(core, BodyNext(core))
  {
    if core.phase.Drained? {
      assert Quiet(core, CloseRecorder(core));
    } else if core.phase.RecorderDone? {
      assert Quiet(core, ClosePeer(core));
    } else {
      StopIsQuiet(core);
    }
  }

  lemma EnterIsQuiet(st: State, t: nat, s: nat, next: Thread, x: nat)
    requires s in st.live && CloseEnabled(st.live[s].core, t) && x in st.live
    requires st.live[s].core.closeOnce.Fresh?
    ensures x in StepClose(st, t, s, next).live && Quiet(st.live[x].core, StepClose(st, t, s, next).live[x].core)
  {
    InsideQuiet(st, t, s, EnterClose(st.live[s].core, t), CallClose(s, next), x);
    assert StepClose(st, t, s, next).live == Inside(st, t, s, EnterClose(st.live[s].core, t), CallClose(s, next)).live;
  }

  lemma CallbackIsQuiet(st: State, t: nat, s: nat, next: Thread, x: nat)
    requires s in st.live && CloseEnabled(st.live[s].core, t) && x in st.live
    requires st.live[s].core.closeOnce.Running? && st.live[s].core.phase.PeerDone?
    ensures x in StepClose(st, t, s, next).live && Quiet(st.live[x].core, StepClose(st, t, s, next).live[x].core)
  {
    InsideQuiet(st, t, s, RunTerminal(st.live[s].core), CallClose(s, next), x);
    assert StepClose(st, t, s, next).live == Inside(st, t, s, RunTerminal(st.live[s].core), CallClose(s, next)).live;
  }

  lemma FinishIsQuiet(st: State, t: nat, s: nat, next: Thread, x: nat)
    requires s in st.live && CloseEnabled(st.live[s].core, t) && x in st.live
    requires st.live[s].core.closeOnce.Running? && st.live[s].core.phase.Terminal?
    ensures x in StepClose(st, t, s, next).live && Quiet(st.live[x].core, StepClose(st, t, s, next).live[x].core)
  {
    InsideQuiet(st, t, s, FinishClose(st.live[s].core), next, x);
    assert StepClose(st, t, s, next).live == Inside(st, t, s, FinishClose(st.live[s].core), next).live;
  }

  lemma CloseIsQuiet(st: State, t: nat, s: nat, next: Thread, x: nat)
    requires s in st.live && CloseEnabled(st.live[s].core, t) && x in st.live
    ensures x in StepClose(st, t, s, next).live && Quiet(st.live[x].core, StepClose(st, t, s, next).live[x].core)
  {
    var core := st.live[s].core;
    if core.closeOnce.Fresh? {
      EnterIsQuiet(st, t, s, next, x);
    } else if core.closeOnce.Running? && core.phase.PeerDone? {
      CallbackIsQuiet(st, t, s, next, x);
    } else if core.closeOnce.Running? && core.phase.Terminal? {
      FinishIsQuiet(st, t, s, next, x);
    } else if core.closeOnce.Running? && !core.phase.NotClosing? {
      SameStep(st, t, s, next);
      BodyIsQuiet(core);
      InsideQuiet(st, t, s, BodyNext(core), CallClose(s, next), x);
    }
  }

  lemma ManagerIsQuiet(st: State, t: nat, c: Choice, x: nat)
    requires RunEnabled(st, t, c) && x in st.live
    requires var th := st.threads[t];
             || th.CreateStart? || th.Making? || th.SettingUp? || th.Publishing? || th.Cleanup? || th.Expiring?
             || th.ClosingId? || th.ClosingAll? || th.CloseLoop? || th.MarkingId? || th.Marking?
    ensures x in RunStep(st, t, c).live && Quiet(st.live[x].core, RunStep(st, t, c).live[x].core)
  {
  }

  lemma TtlIsQuiet(st: State, t: nat, c: Choice, x: nat)
    requires RunEnabled(st, t, c) && x in st.live
    requires var th := st.threads[t];
             th.SettingTtl? || th.StoringTtl? || (th.ArmingTtl? && th.session != x)
    ensures x in RunStep(st, t, c).live && Quiet(st.live[x].core, RunStep(st, t, c).live[x].core)
  {
  }

  lemma TrackIsQuiet(st: State, t: nat, c: Choice, x: nat)
    requires RunEnabled(st, t, c) && x in st.live
    requires var th := st.threads[t];
             th.TrackStart? || th.TrackLocked? || th.Recording? || th.GraceFired?
    ensures x in RunStep(st, t, c).live && Quiet(st.live[x].core, RunStep(st, t, c).live[x].core)
  {
  }

  lemma PeerIsQuiet(st: State, t: nat, c: Choice, x: nat)
    requires RunEnabled(st, t, c) && x in st.live
    requires var th := st.threads[t]; th.PeerLocked? || th.PeerAfter? || (th.PeerStart? && th.session != x)
    ensures x in RunStep(st, t, c).live && Quiet(st.live[x].core, RunStep(st, t, c).live[x].core)
  {
  }

  lemma PrimeIsQuiet(st: State, t: nat, c: Choice, x: nat)
    requires RunEnabled(st, t, c) && x in st.live
    requires st.threads[t].PrimeStart? || st.threads[t].PrimeWaiting?
    ensures x in RunStep(st, t, c).live && Quiet(st.live[x].core, RunStep(st, t, c).live[x].core)
  {
  }

  lemma PrimeBodyIsQuiet(st: State, t: nat, c: Choice, x: nat)
    requires RunEnabled(st, t, c) && x in st.live
    requires st.threads[t].PrimeInside? || st.threads[t].PrimeLocked?
    ensures x in RunStep(st, t, c).live && Quiet(st.live[x].core, RunStep(st, t, c).live[x].core)
  {
  }

  lemma PrimeEndIsQuiet(st: State, t: nat, c: Choice, x: nat)
    requires RunEnabled(st, t, c) && x in st.live
    requires st.threads[t].PrimeStarting? || st.threads[t].PrimeLeaving? || st.threads[t].PeerStopping?
    ensures x in RunStep(st, t, c).live && Quiet(st.live[x].core, RunStep(st, t, c).live[x].core)
  {
  }

  lemma RunnerIsQuiet(st: State, t: nat, c: Choice, x: nat)
    requires RunEnabled(st, t, c) && x in st.live
    requires st.threads[t].PrimeTop? || st.threads[t].PrimeSelect? || st.threads[t].PrimeTicked?
    ensures x in RunStep(st, t, c).live && Quiet(st.live[x].core, RunStep(st, t, c).live[x].core)
  {
  }

  lemma WriteIsQuiet(st: State, t: nat, c: Choice, x: nat)
    requires RunEnabled(st, t, c) && x in st.live && st.threads[t].PrimeWriting?
    ensures x in RunStep(st, t, c).live && Quiet(st.live[x].core, RunStep(st, t, c).live[x].core)
  {
  }

  /** Starting the own Create's timer, and delivering a peer state, are the two steps that are not quiet. */
  predicate Loud(th: Thread, x: nat) {
    (th.ArmingTtl? || th.PeerStart?) && th.session == x
  }

  lemma RunIsQuiet(st: State, t: nat, c: Choice, x: nat)
    requires RunEnabled(st, t, c) && x in st.live && !Loud(st.threads[t], x)
    ensures x in RunStep(st, t, c).live && Quiet(st.live[x].core, RunStep(st, t, c).live[x].core)
  {
    var th := st.threads[t];
    if th.CallClose? {
      CloseIsQuiet(st, t, th.session, th.next, x);
    } else if th.SettingTtl? || th.StoringTtl? || th.ArmingTtl? {
      TtlIsQuiet(st, t, c, x);
    } else if th.TrackStart? || th.TrackLocked? || th.Recording? || th.GraceFired? {
      TrackIsQuiet(st, t, c, x);
    } else if th.PeerStart? || th.PeerLocked? || th.PeerAfter? {
      PeerIsQuiet(st, t, c, x);
    } else if th.PrimeStart? || th.PrimeWaiting? {
      PrimeIsQuiet(st, t, c, x);
    } else if th.PrimeInside? || th.PrimeLocked? {
      PrimeBodyIsQuiet(st, t, c, x);
    } else if th.PrimeStarting? || th.PrimeLeaving? || th.PeerStopping? {
      PrimeEndIsQuiet(st, t, c, x);
    } else if th.PrimeWriting? {
      WriteIsQuiet(st, t, c, x);
    } else if OfRunner(th) {
      RunnerIsQuiet(st, t, c, x);
    } else {
      ManagerIsQuiet(st, t, c, x);
    }
  }

  lemma ArmingIsUndelivered(st: State, t: nat, c: Choice, x: nat)
    requires RunEnabled(st, t, c) && x in st.live && st.threads[t].ArmingTtl?
    ensures x in RunStep(st, t, c).live && Undelivered(st.live[x].core, RunStep(st, t, c).live[x].core)
    ensures RunStep(st, t, c).live[x].core.expiryFired == st.live[x].core.expiryFired
  {
  }

  lemma DeliveringIsUnfired(st: State, t: nat, c: Choice, x: nat)
    requires RunEnabled(st, t, c) && x in st.live && st.threads[t].PeerStart?
    ensures x in RunStep(st, t, c).live && Unfired(st.live[x].core, RunStep(st, t, c).live[x].core)
  {
  }

  lemma SessionStays(st: State, a: Action, e: nat)
    requires Inv(st) && Enabled(st, a) && e in st.entries && st.entries[e].session.Some?
    ensures e in Apply(st, a).entries && Apply(st, a).entries[e].session == st.entries[e].session
  {
    if a.Run? && st.threads[a.t].Publishing? {
      ThreadIn(st, a.t);
      EntryIn(st, st.threads[a.t].entry);
    }
  }

  lemma ThreadStays(st: State, a: Action, u: nat)
    requires Inv(st) && Enabled(st, a) && u in st.threads && u != a.t
    ensures u in Apply(st, a).threads && Apply(st, a).threads[u] == st.threads[u]
  {
    ApplyKeepsInv(st, a);
  }

  lemma NoNewInClose(st: State, t: nat, s: nat, next: Thread, x: nat)
    requires s in st.live && CloseEnabled(st.live[s].core, t) && x in StepClose(st, t, s, next).live
    ensures x in st.live
  {
    var core := st.live[s].core;
    if core.closeOnce.Running? && !core.phase.NotClosing? && !core.phase.PeerDone? && !core.phase.Terminal? {
      SameStep(st, t, s, next);
    }
  }

  lemma NewInManager(st: State, t: nat, c: Choice, s: nat)
    requires RunEnabled(st, t, c) && OfManager(st.threads[t]) && s !in st.live && s in RunStep(st, t, c).live
    ensures st.threads[t].Making?
  {
  }

  /** Only `NewSession` makes a session. */
  lemma NewCore(st: State, a: Action, s: nat)
    requires Enabled(st, a) && s !in st.live && s in Apply(st, a).live
    ensures a.Run? && st.threads[a.t].Making?
  {
    if a.Run? && st.threads[a.t].CallClose? {
      NoNewInClose(st, a.t, st.threads[a.t].session, st.threads[a.t].next, s);
    } else if a.Run? && OfManager(st.threads[a.t]) {
      NewInManager(st, a.t, a.choice, s);
    } else if a.Run? && OfPrime(st.threads[a.t]) {
      PrimeKeepsObjects(st, a.t, a.choice);
    } else if a.Run? {
      SessionKeepsObjects(st, a.t, a.choice);
    }
  }
}
