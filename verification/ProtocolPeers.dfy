/** What becomes of a delivered peer state: a lost connection is closed, or its grace timer is running. */
module ProtocolPeers {
  import opened SessionSteps
  import opened Protocol
  import opened ProtocolInvariant
  import opened ProtocolRuns
  import opened ProtocolSafety
  import opened ProtocolFrames

  predicate IsGone(state: PeerState) {
    state == Failed || state == PeerClosed
  }

  predicate WasGone(core: Session) {
    exists i :: 0 <= i < |core.delivered| && IsGone(core.delivered[i])
  }

  predicate LastDisconnected(core: Session) {
    core.delivered != [] && core.delivered[|core.delivered| - 1] == Disconnected
  }

  // ---- threads that will call Close ----

  /** The thread has seen the connection gone and goes on to close, or owes a Close anyway. */
  predicate ClosesGone(th: Thread, s: nat) {
    (th.PeerAfter? && th.session == s && IsGone(th.state)) || th == PeerStopping(s) || Owes(th, s)
  }

  /** The thread is about to arm the grace timer of the last state, or is its callback, or owes a Close anyway. */
  predicate ClosesLost(th: Thread, s: nat, g: nat) {
    th == PeerLocked(s, g) || th == GraceFired(s, g) || Owes(th, s)
  }

  predicate GoneOk(st: State, s: nat)
    requires s in st.live
  {
    WasGone(st.live[s].core) ==>
      || st.live[s].core.closeOnce != Fresh
      || exists t :: t in st.threads && ClosesGone(st.threads[t], s)
  }

  predicate LostOk(st: State, s: nat)
    requires s in st.live
  {
    LastDisconnected(st.live[s].core) && !st.live[s].core.cancelled ==>
      || st.live[s].core.closeOnce != Fresh
      || st.live[s].core.generation in st.live[s].core.graceArmed
      || exists t :: t in st.threads && ClosesLost(st.threads[t], s, st.live[s].core.generation)
  }

  ghost predicate AllPeersOk(st: State) {
    forall s :: s in st.live ==> GoneOk(st, s) && LostOk(st, s)
  }

  // ---- debts ----

  lemma BegunStays(st: State, a: Action, s: nat)
    requires Inv(st) && Enabled(st, a) && s in st.live
    ensures s in Apply(st, a).live
    ensures st.live[s].core.closeOnce != Fresh ==> Apply(st, a).live[s].core.closeOnce != Fresh
    ensures st.live[s].core.cancelled ==> Apply(st, a).live[s].core.cancelled
  {
    ApplyKeepsInv(st, a);
    LiveIn(st, s);
    LiveIn(Apply(st, a), s);
  }

  lemma CallerPays(st: State, t: nat, x: nat, next: Thread, s: nat)
    requires Inv(st) && t in st.threads && st.threads[t] == CallClose(x, next)
    requires x in st.live && CloseEnabled(st.live[x].core, t) && s in st.live && Owes(CallClose(x, next), s)
    ensures var st' := StepClose(st, t, x, next);
            && t in st'.threads && s in st'.live
            && (st'.live[s].core.closeOnce != Fresh || Owes(st'.threads[t], s))
  {
    LiveIn(st, x);
  }

  /** A thread that owes a Close still owes it after its step, or the Close has begun. */
  lemma DebtStays(st: State, t: nat, c: Choice, s: nat)
    requires Inv(st) && RunEnabled(st, t, c) && s in st.live && Owes(st.threads[t], s)
    ensures var st' := RunStep(st, t, c);
            && t in st'.threads && s in st'.live
            && (st'.live[s].core.closeOnce != Fresh || Owes(st'.threads[t], s))
  {
    match st.threads[t]
    case CallClose(x, next) => CallerPays(st, t, x, next, s);
    case CloseLoop(todo, _) =>
      assert todo == [todo[0]] + todo[1..];
    case _ =>
  }

  // ---- gone ----

  lemma GoneThreadStep(st: State, t: nat, c: Choice, s: nat)
    requires Inv(st) && RunEnabled(st, t, c) && s in st.live && ClosesGone(st.threads[t], s)
    ensures var st' := RunStep(st, t, c);
            && t in st'.threads && s in st'.live
            && (st'.live[s].core.closeOnce != Fresh || ClosesGone(st'.threads[t], s))
  {
    if Owes(st.threads[t], s) {
      DebtStays(st, t, c, s);
    }
  }

  /** While no state is delivered to the session. */
  lemma GoneKept(st: State, a: Action, s: nat)
    requires Inv(st) && Enabled(st, a) && s in st.live && GoneOk(st, s)
    requires s in Apply(st, a).live && WasGone(st.live[s].core)
    ensures GoneOk(Apply(st, a), s)
  {
    BegunStays(st, a, s);
    if st.live[s].core.closeOnce == Fresh {
      var u :| u in st.threads && ClosesGone(st.threads[u], s);
      if u == a.t {
        GoneThreadStep(st, u, a.choice, s);
      } else {
        ThreadStays(st, a, u);
      }
    }
  }

  /** The step that delivers a state to the session. */
  lemma Delivers(st: State, t: nat, c: Choice, s: nat, state: PeerState)
    requires RunEnabled(st, t, c) && st.threads[t] == PeerStart(s, state)
    ensures var st' := RunStep(st, t, c);
            && s in st.live && s in st'.live && t in st'.threads
            && st'.live[s].core == LockPeer(st.live[s].core, t, state)
            && st'.threads[t] == (if state == Disconnected && !st.live[s].core.cancelled
                                  then PeerLocked(s, st.live[s].core.generation + 1) else PeerAfter(s, state))
  {
  }

  lemma WasGoneAfter(core: Session, t: nat, state: PeerState)
    ensures WasGone(LockPeer(core, t, state)) <==> WasGone(core) || IsGone(state)
  {
    var core' := LockPeer(core, t, state);
    if WasGone(core) {
      var i :| 0 <= i < |core.delivered| && IsGone(core.delivered[i]);
      assert core'.delivered[i] == core.delivered[i];
    }
    assert core'.delivered[|core.delivered|] == state;
  }

  lemma GoneStep(st: State, a: Action, s: nat)
    requires Inv(st) && Enabled(st, a) && s in st.live && GoneOk(st, s)
    ensures s in Apply(st, a).live && GoneOk(Apply(st, a), s)
  {
    BegunStays(st, a, s);
    if WasGone(st.live[s].core) {
      GoneKept(st, a, s);
    } else if a.Run? && st.threads[a.t].PeerStart? && st.threads[a.t].session == s {
      Delivers(st, a.t, a.choice, s, st.threads[a.t].state);
      WasGoneAfter(st.live[s].core, a.t, st.threads[a.t].state);
    } else {
      StepIsUndelivered(st, a, s);
    }
  }

  /** A step that delivers nothing to the session; only its fired grace timer may leave the armed ones. */
  lemma StepIsUndelivered(st: State, a: Action, s: nat)
    requires Enabled(st, a) && s in st.live
    requires a.Run? ==> !(st.threads[a.t].PeerStart? && st.threads[a.t].session == s)
    ensures s in Apply(st, a).live
    ensures var c, c' := st.live[s].core, Apply(st, a).live[s].core;
            && c'.delivered == c.delivered && c'.generation == c.generation
            && (|| Undelivered(c, c')
                || (a.GraceFires? && a.session == s && c'.graceArmed == c.graceArmed - {a.generation}))
  {
    if a.Run? {
      if st.threads[a.t].ArmingTtl? && st.threads[a.t].session == s {
        ArmingIsUndelivered(st, a.t, a.choice, s);
      } else {
        RunIsQuiet(st, a.t, a.choice, s);
      }
    }
  }

  // ---- lost ----

  lemma ArmsStep(st: State, t: nat, c: Choice, s: nat, g: nat)
    requires RunEnabled(st, t, c) && st.threads[t] == PeerLocked(s, g)
    ensures s in RunStep(st, t, c).live && g in RunStep(st, t, c).live[s].core.graceArmed
  {
  }

  /** The callback of the last state's timer finds the session still disconnected. */
  lemma CallbackCloses(st: State, t: nat, c: Choice, s: nat)
    requires Inv(st) && RunEnabled(st, t, c) && s in st.live
    requires st.threads[t] == GraceFired(s, st.live[s].core.generation)
    requires LastDisconnected(st.live[s].core) && !st.live[s].core.cancelled
    ensures t in RunStep(st, t, c).threads && Owes(RunStep(st, t, c).threads[t], s)
  {
    LiveIn(st, s);
  }

  lemma LostThreadStep(st: State, t: nat, c: Choice, s: nat)
    requires Inv(st) && RunEnabled(st, t, c) && s in st.live
    requires LastDisconnected(st.live[s].core) && !st.live[s].core.cancelled
    requires ClosesLost(st.threads[t], s, st.live[s].core.generation)
    ensures var st', g := RunStep(st, t, c), st.live[s].core.generation;
            && t in st'.threads && s in st'.live
            && (|| st'.live[s].core.closeOnce != Fresh
                || g in st'.live[s].core.graceArmed
                || ClosesLost(st'.threads[t], s, g))
  {
    var g := st.live[s].core.generation;
    if st.threads[t] == PeerLocked(s, g) {
      ArmsStep(st, t, c, s, g);
    } else if st.threads[t] == GraceFired(s, g) {
      CallbackCloses(st, t, c, s);
      BegunStays(st, Run(t, c), s);
    } else {
      DebtStays(st, t, c, s);
    }
  }

  lemma OpenMeansEarly(st: State, s: nat)
    requires Inv(st) && s in st.live && !st.live[s].core.cancelled
    ensures Rank(st.live[s].core.phase) < 3
  {
    LiveIn(st, s);
  }

  /** While no state is delivered to the session. */
  lemma LostKept(st: State, a: Action, s: nat)
    requires Inv(st) && Enabled(st, a) && s in st.live && LostOk(st, s)
    requires a.Run? ==> !(st.threads[a.t].PeerStart? && st.threads[a.t].session == s)
    requires s in Apply(st, a).live && LastDisconnected(st.live[s].core) && !st.live[s].core.cancelled
    ensures LostOk(Apply(st, a), s)
  {
    var core, st' := st.live[s].core, Apply(st, a);
    StepIsUndelivered(st, a, s);
    BegunStays(st, a, s);
    OpenMeansEarly(st, s);
    if core.closeOnce == Fresh && core.generation in core.graceArmed {
      if a.GraceFires? && a.session == s && a.generation == core.generation {
        assert st'.threads[a.t] == GraceFired(s, core.generation);
      }
    } else if core.closeOnce == Fresh {
      LostWitness(st, a, s);
    }
  }

  lemma LostWitness(st: State, a: Action, s: nat)
    requires Inv(st) && Enabled(st, a) && s in st.live && s in Apply(st, a).live
    requires LastDisconnected(st.live[s].core) && !st.live[s].core.cancelled
    requires exists t :: t in st.threads && ClosesLost(st.threads[t], s, st.live[s].core.generation)
    ensures var st', g := Apply(st, a), st.live[s].core.generation;
            || st'.live[s].core.closeOnce != Fresh
            || g in st'.live[s].core.graceArmed
            || exists t :: t in st'.threads && ClosesLost(st'.threads[t], s, g)
  {
    var u :| u in st.threads && ClosesLost(st.threads[u], s, st.live[s].core.generation);
    if u == a.t {
      LostThreadStep(st, u, a.choice, s);
    } else {
      ThreadStays(st, a, u);
    }
  }

  lemma LostDelivered(st: State, t: nat, c: Choice, s: nat)
    requires Inv(st) && RunEnabled(st, t, c) && st.threads[t].PeerStart? && st.threads[t].session == s
    ensures s in RunStep(st, t, c).live && LostOk(RunStep(st, t, c), s)
  {
    Delivers(st, t, c, s, st.threads[t].state);
  }

  lemma LostStep(st: State, a: Action, s: nat)
    requires Inv(st) && Enabled(st, a) && s in st.live && LostOk(st, s)
    ensures s in Apply(st, a).live && LostOk(Apply(st, a), s)
  {
    BegunStays(st, a, s);
    if a.Run? && st.threads[a.t].PeerStart? && st.threads[a.t].session == s {
      LostDelivered(st, a.t, a.choice, s);
    } else if LastDisconnected(st.live[s].core) && !st.live[s].core.cancelled {
      LostKept(st, a, s);
    } else {
      StepIsUndelivered(st, a, s);
    }
  }

  // ---- runs ----

  lemma NewSessionPeers(st: State, a: Action, s: nat)
    requires Inv(st) && Enabled(st, a) && s !in st.live && s in Apply(st, a).live
    ensures GoneOk(Apply(st, a), s) && LostOk(Apply(st, a), s)
  {
    NewCore(st, a, s);
  }

  lemma {:induction false} PeersRun(st: State, actions: seq<Action>, end: State)
    requires Inv(st) && AllPeersOk(st) && Reaches(st, actions, end)
    ensures AllPeersOk(end)
    decreases |actions|
  {
    if actions != [] {
      var st' := Apply(st, actions[0]);
      forall s | s in st'.live
        ensures GoneOk(st', s) && LostOk(st', s)
      {
        if s in st.live {
          GoneStep(st, actions[0], s);
          LostStep(st, actions[0], s);
        } else {
          NewSessionPeers(st, actions[0], s);
        }
      }
      ApplyKeepsInv(st, actions[0]);
      PeersRun(st', actions[1..], end);
    }
  }

  lemma ReachablePeers(st: State)
    requires Reachable(st)
    ensures Inv(st) && AllPeersOk(st)
  {
    ReachableInv(st);
    var ttl: bool, actions: seq<Action> :| Reaches(Initial(ttl), actions, st);
    InitialInv(ttl);
    PeersRun(Initial(ttl), actions, st);
  }

  /** A Failed or Closed state that was ever delivered leaves a Close begun, or a thread that goes on to it. */
  lemma GoneLeavesClose(st: State, s: nat)
    requires Reachable(st) && s in st.live && WasGone(st.live[s].core)
    ensures !st.live[s].core.closeOnce.Fresh? || exists t :: t in st.threads && ClosesGone(st.threads[t], s)
  {
    ReachablePeers(st);
    assert GoneOk(st, s);
  }

  /**
   * While the last delivered state is Disconnected and the session open, its own grace timer is running, or is being
   * armed or handled, or a Close is begun or owed.
   */
  lemma GraceCoverage(st: State, s: nat)
    requires Reachable(st) && s in st.live && LastDisconnected(st.live[s].core) && !st.live[s].core.cancelled
    ensures || !st.live[s].core.closeOnce.Fresh?
            || |st.live[s].core.delivered| in st.live[s].core.graceArmed
            || exists t :: t in st.threads && ClosesLost(st.threads[t], s, |st.live[s].core.delivered|)
  {
    ReachablePeers(st);
    LiveIn(st, s);
    assert LostOk(st, s);
  }

  lemma BegunAndQuiet(st: State, s: nat)
    requires Inv(st) && s in st.live && !st.live[s].core.closeOnce.Fresh?
    requires forall t :: t in st.threads ==> Returned(st.threads[t])
    ensures Done(st, s)
  {
    LiveIn(st, s);
  }

  /** When all threads have returned, a session whose peer ever failed or closed is closed to the end. */
  lemma GoneMeansClosed(st: State, s: nat)
    requires Reachable(st) && s in st.live && WasGone(st.live[s].core)
    requires forall t :: t in st.threads ==> Returned(st.threads[t])
    ensures Done(st, s)
  {
    GoneLeavesClose(st, s);
    ReachableInv(st);
    BegunAndQuiet(st, s);
  }

  lemma CancelledIsBegun(st: State, s: nat)
    requires Inv(st) && s in st.live && st.live[s].core.cancelled
    ensures !st.live[s].core.closeOnce.Fresh?
  {
    LiveIn(st, s);
  }

  /** When all threads have returned, a session last seen Disconnected is closed, or its own grace timer is running. */
  lemma DisconnectedMeansClosedOrTimed(st: State, s: nat)
    requires Reachable(st) && s in st.live && LastDisconnected(st.live[s].core)
    requires forall t :: t in st.threads ==> Returned(st.threads[t])
    ensures Done(st, s) || |st.live[s].core.delivered| in st.live[s].core.graceArmed
  {
    ReachableInv(st);
    if st.live[s].core.cancelled {
      CancelledIsBegun(st, s);
    } else {
      GraceCoverage(st, s);
    }
    if !st.live[s].core.closeOnce.Fresh? {
      BegunAndQuiet(st, s);
    }
  }
}
