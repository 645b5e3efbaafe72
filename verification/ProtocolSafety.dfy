/** What the invariant means for sessions, recorders, timers and the audio prime. */
module ProtocolSafety {
  import opened GoText
  import opened Recording
  import opened SessionSteps
  import opened Protocol
  import opened ProtocolInvariant
  import opened ProtocolRuns
  import opened ProtocolHistory

  // ---- no leaks ----

  /** Its Create is still between `NewSession` and publication. */
  predicate HeldByCreate(st: State, s: nat)
    requires s in st.live
  {
    exists t :: t in st.threads && Pending(st.threads[t], s)
  }

  /** A session is with its Create, in the map, being closed or closed, or some thread is bound to call its `Close`. */
  lemma NoSessionLeak(st: State, s: nat)
    requires Reachable(st) && s in st.live
    ensures || HeldByCreate(st, s)
            || (exists id :: Published(st, id) == Some(s))
            || !st.live[s].core.closeOnce.Fresh?
            || SomeoneOwes(st, s)
  {
    ReachableInv(st);
    LiveIn(st, s);
    if InMap(st, s) {
      assert Published(st, st.entries[st.live[s].entry].id) == Some(s);
    }
  }

  predicate Returned(th: Thread) {
    th.Created? || th.Rejected? || th.CreateFailed? || th.Ended?
  }

  /** When every thread has returned, a session is in the map or has been closed to the end. */
  lemma QuietMeansPublishedOrClosed(st: State, s: nat)
    requires Reachable(st) && s in st.live
    requires forall t :: t in st.threads ==> Returned(st.threads[t])
    ensures (exists id :: Published(st, id) == Some(s)) <==> !Done(st, s)
    ensures Done(st, s) ==> st.live[s].core.recorderCloses == st.live[s].core.created
  {
    ReachableInv(st);
    LiveIn(st, s);
    NoSessionLeak(st, s);
    if Done(st, s) {
      forall id
        ensures Published(st, id) != Some(s)
      {
        assert Reaches(st, [], st);
        TerminalNeverInMap(st, [], st, s, id);
      }
    }
  }

  // ---- recorders ----

  /** One recorder at most, closed at most once; its writer sees writes and then at most one close. */
  lemma RecorderSafety(st: State, s: nat)
    requires Reachable(st) && s in st.live
    ensures var core := st.live[s].core;
            && core.created <= 1 && core.recorderCloses <= core.created
            && (core.recording.closed <==> core.recorderCloses == 1)
            && (core.recorder ==> core.created == 1 && core.recorderCloses == 0)
            && Disciplined(core.recording)
  {
    ReachableInv(st);
    LiveIn(st, s);
  }

  /** `Close` has been through its critical section under `stateMu`. */
  predicate ClosePassed(core: Session) {
    Rank(core.phase) >= 4
  }

  /** From that critical section on no recorder is created, and no timer and no prime's cancel function is stored. */
  lemma NothingStartsAfterClose(st: State, actions: seq<Action>, end: State, s: nat)
    requires Reachable(st) && Reaches(st, actions, end)
    requires s in st.live && ClosePassed(st.live[s].core)
    ensures s in end.live
    ensures var core := end.live[s].core;
            && core.created == st.live[s].core.created
            && core.prime.stored == st.live[s].core.prime.stored
            && !core.recorder && core.graceStored == None && core.graceArmed == {} && !core.expiryStored
  {
    ReachableInv(st);
    RunLater(st, actions, end);
    LiveIn(end, s);
  }

  /** Thread t returns from a call of session s's `Close` in this step. */
  predicate ReturnsFromClose(st: State, t: nat, c: Choice, s: nat) {
    && RunEnabled(st, t, c)
    && st.threads[t].CallClose? && st.threads[t].session == s
    && RunStep(st, t, c).threads[t] == st.threads[t].next
  }

  lemma {:induction false} NextDiffers(s: nat, next: Thread)
    ensures CallClose(s, next) != next
    decreases next
  {
    if next.CallClose? {
      NextDiffers(next.session, next.next);
    }
  }

  lemma ReturnIsDone(st: State, t: nat, c: Choice, s: nat, next: Thread)
    requires Inv(st) && RunEnabled(st, t, c) && st.threads[t] == CallClose(s, next)
    requires RunStep(st, t, c).threads[t] == next && next != CallClose(s, next)
    ensures Done(RunStep(st, t, c), s)
  {
    ThreadIn(st, t);
  }

  /** Whichever call of `Close` returns, the body of `closeOnce` is done. */
  lemma CloseReturnsDone(st: State, t: nat, c: Choice, s: nat)
    requires Reachable(st) && ReturnsFromClose(st, t, c, s)
    ensures Done(RunStep(st, t, c), s) && Inv(RunStep(st, t, c))
  {
    ReachableInv(st);
    ApplyKeepsInv(st, Run(t, c));
    NextDiffers(s, st.threads[t].next);
    ReturnIsDone(st, t, c, s, st.threads[t].next);
  }

  lemma DoneMeans(st: State, s: nat)
    requires Inv(st) && Done(st, s)
    ensures var core := st.live[s].core;
            && core.cancelled && core.phase.Terminal?
            && core.recorderCloses == core.created
            && (core.created == 1 ==> core.recording.closed)
            && !Bound(st, st.live[s].entry)
  {
    LiveIn(st, s);
  }

  lemma TraceFinal(st: State, st': State, s: nat)
    requires Later(st, st') && Done(st, s) && st.live[s].core.phase.Terminal?
    ensures Done(st', s) && st'.live[s].core.recording == st.live[s].core.recording
  {
    assert Forward(st.live[s].core, st'.live[s].core);
  }

  /** Then the context is cancelled, the recorder closed and the callback has run, and so it stays. */
  lemma DoneStaysClosed(st: State, s: nat, actions: seq<Action>, end: State)
    requires Inv(st) && Done(st, s) && Reaches(st, actions, end)
    ensures Done(end, s)
    ensures var core := end.live[s].core;
            && core.cancelled && core.phase.Terminal?
            && core.recorderCloses == core.created
            && (core.created == 1 ==> core.recording.closed)
            && core.recording == st.live[s].core.recording
            && !Bound(end, end.live[s].entry)
  {
    DoneMeans(st, s);
    RunLater(st, actions, end);
    TraceFinal(st, end, s);
    DoneMeans(end, s);
  }

  /** A call of `Close` that returned sees the recorder closed, and its writer's trace is final. */
  lemma CloseReturnsClosed(st: State, t: nat, c: Choice, s: nat, next: State, actions: seq<Action>, end: State)
    requires Reachable(st) && ReturnsFromClose(st, t, c, s)
    requires next == RunStep(st, t, c) && Reaches(next, actions, end)
    ensures s in next.live && Done(end, s)
    ensures end.live[s].core.recorderCloses == end.live[s].core.created
    ensures end.live[s].core.created == 1 ==> end.live[s].core.recording.closed
    ensures end.live[s].core.recording == next.live[s].core.recording
  {
    CloseReturnsDone(st, t, c, s);
    DoneStaysClosed(next, s, actions, end);
  }

  // ---- the grace timer ----

  /** A stored grace timer belongs to the last delivered state, which is Disconnected; only the stored one can fire. */
  lemma GraceTimerCurrent(st: State, s: nat)
    requires Reachable(st) && s in st.live
    ensures var core := st.live[s].core;
            && (forall g :: g in core.graceArmed ==> core.graceStored == Some(g))
            && (core.graceStored.Some? ==>
                  && core.graceStored == Some(|core.delivered|)
                  && |core.delivered| > 0 && core.delivered[|core.delivered| - 1] == Disconnected
                  && !ClosePassed(core))
  {
    ReachableInv(st);
    LiveIn(st, s);
  }

  /** Thread t arms the timer of this generation in this step. */
  predicate ArmsGrace(st: State, t: nat, c: Choice, s: nat, g: nat) {
    RunEnabled(st, t, c) && st.threads[t] == PeerLocked(s, g)
  }

  lemma ArmedFor(st: State, t: nat, s: nat, g: nat)
    requires Inv(st) && t in st.threads && st.threads[t] == PeerLocked(s, g)
    ensures s in st.live && |st.live[s].core.delivered| == g > 0 && st.live[s].core.delivered[g - 1] == Disconnected
  {
    ThreadIn(st, t);
    LiveIn(st, s);
  }

  lemma CheckedFor(st: State, s: nat, g: nat)
    requires Inv(st) && s in st.live && StillDisconnected(st.live[s].core, g)
    ensures |st.live[s].core.delivered| == g
  {
    LiveIn(st, s);
  }

  /** When the check of a fired timer passes, no peer state was delivered since that timer was armed. */
  lemma GraceCheckSound(st: State, t: nat, c: Choice, actions: seq<Action>, end: State, u: nat, s: nat, g: nat)
    requires Reachable(st) && ArmsGrace(st, t, c, s, g) && Reaches(st, [Run(t, c)] + actions, end)
    requires u in end.threads && end.threads[u] == GraceFired(s, g)
    requires s in end.live && StillDisconnected(end.live[s].core, g)
    ensures s in st.live && end.live[s].core.delivered == st.live[s].core.delivered
    ensures |st.live[s].core.delivered| == g > 0 && st.live[s].core.delivered[g - 1] == Disconnected
  {
    ReachableInv(st);
    ArmedFor(st, t, s, g);
    RunLater(st, [Run(t, c)] + actions, end);
    CheckedFor(end, s, g);
    assert Extends(st.live[s].core.delivered, end.live[s].core.delivered);
  }

  // ---- the expiry timer ----

  /**
   * With a TTL, the session of a Create that returned is cancelled, or its live expiry timer is stored, or it expired.
   */
  lemma TtlCoverage(st: State, t: nat)
    requires Reachable(st) && st.ttl && t in st.threads && st.threads[t].Created?
    ensures st.threads[t].session in st.live
    ensures var core := st.live[st.threads[t].session].core;
            && (core.cancelled || (core.expiryStored && core.expiryArmed) || core.expiryFired)
            && (ClosePassed(core) ==> !core.expiryStored)
  {
    ReachableInv(st);
    ThreadIn(st, t);
    LiveIn(st, st.threads[t].session);
  }
}
