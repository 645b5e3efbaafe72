/** The methods of `Session` run without interference: the critical sections of SessionSteps one after the other. */
module SessionSequences {
  import opened GoText
  import opened Recording
  import opened PrimeSteps
  import opened SessionSteps

  /** No method of the session is under way. */
  predicate Idle(s: Session) {
    SessionInv(s) && s.mu.Free? && !s.primeOnce.Running? && !s.closeOnce.Running?
  }

  /** `startRecorder` leaves this behind. */
  function Tracked(s: Session, ok: bool): Session {
    if s.audioClaimed || s.cancelled then s
    else s.(audioClaimed := true,
            recorder := s.recorder || ok,
            created := if ok then s.created + 1 else s.created,
            recording := if ok then NEW_RECORDER else s.recording)
  }

  /** The critical section of `handlePeerConnectionState` leaves this behind. */
  function PeerHandled(s: Session, state: PeerState): Session {
    var arms := state == Disconnected && !s.cancelled;
    s.(delivered := s.delivered + [state],
       generation := s.generation + 1,
       peerState := state,
       graceArmed := if arms then StopGrace(s) + {s.generation + 1} else StopGrace(s),
       graceStored := if arms then Some(s.generation + 1) else None)
  }

  /** `startAudioPrime` leaves this behind: the runner's goroutine is there, but need not run yet. */
  function Primed(s: Session): Session {
    if s.cancelled || s.primeOnce.Finished? then s
    else s.(prime := Start(StoreCancel(s.prime)), primeOnce := Finished)
  }

  /** `stopAudioPrime` leaves this behind. */
  function PrimeStoppedBy(s: Session): Session {
    if s.prime.stored then CutPrime(s) else s
  }

  /** `setExpiryTimer` leaves this behind. */
  function ExpirySet(s: Session): Session {
    s.(expiryArmed := s.expiryArmed && !s.cancelled, expiryStored := s.expiryStored || !s.cancelled)
  }

  lemma TrackedIsTheSteps(s: Session, t: nat, ok: bool)
    requires Idle(s)
    ensures Tracked(s, ok) == if s.audioClaimed || s.cancelled then LockTrack(s, t)
              else FinishTrack(LockTrack(s, t), ok)
  {
  }

  lemma PeerHandledIsTheSteps(s: Session, t: nat, state: PeerState)
    requires Idle(s)
    ensures PeerHandled(s, state) ==
            if state == Disconnected && !s.cancelled then FinishPeer(LockPeer(s, t, state), s.generation + 1)
                                     else LockPeer(s, t, state)
  {
  }

  lemma PrimedIsTheSteps(s: Session, t: nat)
    requires Idle(s)
    ensures Primed(s) ==
            if s.cancelled || s.primeOnce.Finished? then s
            else LeavePrime(StartRunner(StorePrimeCancel(LockPrime(EnterPrime(s, t), t))))
  {
  }

  lemma ExpirySetIsTheSteps(s: Session, t: nat)
    requires Idle(s)
    ensures ExpirySet(s) == if s.cancelled then LockExpiry(s, t) else FinishExpiry(LockExpiry(s, t))
  {
  }

  /** What the whole body of `closeOnce` leaves behind. */
  function Closed(s: Session): Session {
    if s.closeOnce.Finished? then s
    else s.(cancelled := true,
            recorder := false,
            recording := if s.recorder then ClosedOnce(s.recording) else s.recording,
            recorderCloses := if s.recorder then s.recorderCloses + 1 else s.recorderCloses,
            graceArmed := StopGrace(s),
            graceStored := None,
            expiryArmed := s.expiryArmed && !s.expiryStored,
            expiryStored := false,
            phase := Terminal,
            closeOnce := Finished)
  }

  /** The steps of the body up to and including the critical section under `stateMu`. */
  function Stopped(s: Session, t: nat): Session {
    Drain(StopPrime(Cancel(EnterClose(s, t))))
  }

  /** The steps after it. */
  function Ended(s: Session): Session
    requires s.phase.Drained?
  {
    FinishClose(RunTerminal(ClosePeer(CloseRecorder(s))))
  }

  /** The steps one after the other come to that. */
  lemma ClosedIsTheSteps(s: Session, t: nat)
    requires Idle(s) && s.closeOnce.Fresh?
    ensures Ended(Stopped(s, t)) == Closed(s)
  {
  }

  lemma TrackedKeeps(s: Session, ok: bool)
    requires Idle(s)
    ensures Idle(Tracked(s, ok)) && Forward(s, Tracked(s, ok))
  {
  }

  lemma PeerHandledIdle(s: Session, state: PeerState)
    requires Idle(s)
    ensures Idle(PeerHandled(s, state))
  {
    var t := 0;
    PeerHandledIsTheSteps(s, t, state);
    LockPeerKeeps(s, t, state);
    if state == Disconnected && !s.cancelled {
      FinishPeerKeeps(LockPeer(s, t, state), t, s.generation + 1);
    }
  }

  lemma NothingLeftArmed(s: Session)
    requires Idle(s)
    ensures StopGrace(s) == {}
  {
    assert GraceInv(s);
  }

  /** Only a Disconnected state leaves a grace timer, its own. */
  lemma PeerHandledKeeps(s: Session, state: PeerState)
    requires Idle(s)
    ensures var end := PeerHandled(s, state);
            && Idle(end)
            && end.graceArmed == (if state == Disconnected && !s.cancelled then {s.generation + 1} else {})
            && (end.graceStored.Some? <==> state == Disconnected && !s.cancelled)
  {
    PeerHandledIdle(s, state);
    NothingLeftArmed(s);
  }

  lemma PrimedIdle(s: Session)
    requires Idle(s)
    ensures Idle(Primed(s))
  {
    if !s.cancelled && s.primeOnce.Fresh? {
      StoreKeeps(s.prime, PrimeDone(s));
      StartKeeps(StoreCancel(s.prime), PrimeDone(s));
    }
  }

  /** A second call starts nothing. */
  lemma PrimedKeeps(s: Session)
    requires Idle(s)
    ensures Idle(Primed(s))
    ensures Primed(Primed(s)) == Primed(s)
  {
    PrimedIdle(s);
  }

  /** Afterwards the runner's context is done if there is one. */
  lemma PrimeStoppedKeeps(s: Session)
    requires Idle(s)
    ensures Idle(PrimeStoppedBy(s))
    ensures s.prime.stored ==> PrimeDone(PrimeStoppedBy(s))
  {
    if s.prime.stored {
      CutPrimeKeeps(s, 0);
    }
  }

  lemma ExpirySetKeeps(s: Session)
    requires Idle(s) && TimerKnown(s)
    ensures Idle(ExpirySet(s)) && Covered(ExpirySet(s))
  {
  }

  lemma StoppedKeeps(s: Session, t: nat)
    requires Idle(s) && s.closeOnce.Fresh?
    ensures SessionInv(Stopped(s, t)) && Stopped(s, t).closeOnce == Running(t)
    ensures Stopped(s, t).phase == Drained(s.recorder) && Stopped(s, t).cancelled && Stopped(s, t).mu.Free?
    ensures Stopped(s, t).graceArmed == {} && Stopped(s, t).graceStored == None && !Stopped(s, t).expiryStored
    ensures Stopped(s, t).recording == s.recording && Stopped(s, t).recorderCloses == 0
    ensures s.expiryStored ==> !Stopped(s, t).expiryArmed
  {
    EnterCloseKeeps(s, t);
    CancelKeeps(EnterClose(s, t), t);
    StopPrimeKeeps(Cancel(EnterClose(s, t)), t);
    DrainKeeps(StopPrime(Cancel(EnterClose(s, t))), t);
  }

  lemma EndedKeeps(s: Session, t: nat)
    requires SessionInv(s) && s.closeOnce == Running(t) && s.phase.Drained? && s.mu.Free?
    ensures SessionInv(Ended(s)) && Ended(s).closeOnce.Finished? && Ended(s).mu.Free?
  {
    var recorded := CloseRecorder(s);
    CloseRecorderKeeps(s, t);
    ClosePeerKeeps(recorded, t);
    RunTerminalKeeps(ClosePeer(recorded), t);
    FinishCloseKeeps(RunTerminal(ClosePeer(recorded)), t);
  }

  /** `Close` ends everything the session ever started; a second `Close` changes nothing. */
  lemma ClosedEndsAll(s: Session)
    requires Idle(s)
    ensures var end := Closed(s);
            && Idle(end) && end.closeOnce.Finished? && end.cancelled && end.phase.Terminal?
            && end.recorderCloses == s.created && (s.created == 1 ==> end.recording.closed)
            && end.graceArmed == {} && end.graceStored == None && !end.expiryStored
            && Closed(end) == end
  {
    if s.closeOnce.Fresh? {
      var t := 0;
      StoppedKeeps(s, t);
      EndedKeeps(Stopped(s, t), t);
      ClosedIsTheSteps(s, t);
    }
  }
}
