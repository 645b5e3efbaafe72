/** `Session` as the program has it: an object whose methods update its fields. */
module SessionObject {
  import opened GoText
  import opened Recording
  import opened SessionSteps
  import opened SessionSequences

  /** A `time.Timer`. */
  class Timer {
    var armed: bool

    constructor ()
      ensures armed
    {
      armed := true;
    }

    method Stop()
      modifies this
      ensures !armed
    {
      armed := false;
    }
  }

  datatype CloseError = RecorderCloseFailed | PeerCloseFailed

  /** What `Close` reports: the recorder's error first. */
  function FirstError(hadRecorder: bool, recorderOk: bool, peerOk: bool): Option<CloseError> {
    if hadRecorder && !recorderOk then Some(RecorderCloseFailed)
    else if !peerOk then Some(PeerCloseFailed)
    else None
  }

  class SessionState {
    const audioPrimeEnabled: bool
    const audioPrimeWriter: bool   // s.audioPrimeWriter != nil
    var cancelled: bool
    var connected: bool
    var audioClaimed: bool
    var recorder: OggRecorder?
    var disconnectTimer: Timer?
    var disconnectGeneration: nat
    var peerState: PeerState
    var expiryTimer: Timer?
    var audioPrimeCancel: bool
    var audioPrimeStopped: bool
    var audioPrimeOnce: bool
    var closeOnce: bool
    var closeErr: Option<CloseError>
    var terminalRuns: nat
    ghost var core: Session

    ghost predicate FieldsOk()
      reads this
    {
      && cancelled == core.cancelled
      && connected == core.connected
      && audioClaimed == core.audioClaimed
      && (recorder != null <==> core.recorder)
      && disconnectGeneration == core.generation
      && peerState == core.peerState
      && (disconnectTimer != null <==> core.graceStored.Some?)
      && (expiryTimer != null <==> core.expiryStored)
      && audioPrimeCancel == core.prime.stored
      && (core.prime.stopped ==> audioPrimeStopped)
      && (audioPrimeStopped && !cancelled ==> core.prime.stopped)
      && audioPrimeOnce == core.primeOnce.Finished?
      && closeOnce == core.closeOnce.Finished?
      && terminalRuns == (if closeOnce then 1 else 0)
    }

    /** The objects the session holds agree with its history. */
    ghost predicate PartsOk()
      reads this, recorder, disconnectTimer, expiryTimer
    {
      && (recorder != null ==> recorder.State() == core.recording)
      && (disconnectTimer != null && core.graceStored.Some? ==>
            (disconnectTimer.armed <==> core.graceStored.value in core.graceArmed))
      && (expiryTimer != null ==> expiryTimer.armed == core.expiryArmed)
      && (disconnectTimer != null && expiryTimer != null ==> disconnectTimer != expiryTimer)
    }

    ghost predicate Valid()
      reads this, recorder, disconnectTimer, expiryTimer
    {
      FieldsOk() && PartsOk() && Idle(core)
    }

    constructor (primeEnabled: bool, primeWriter: bool)
      ensures Valid() && fresh(this) && core == NEW_SESSION && closeErr == None
      ensures audioPrimeEnabled == primeEnabled && audioPrimeWriter == primeWriter
      ensures recorder == null && disconnectTimer == null && expiryTimer == null
    {
      audioPrimeEnabled, audioPrimeWriter := primeEnabled, primeWriter;
      cancelled, connected, audioClaimed := false, false, false;
      recorder, disconnectTimer, expiryTimer := null, null, null;
      disconnectGeneration, peerState := 0, New;
      audioPrimeCancel, audioPrimeStopped, audioPrimeOnce, closeOnce := false, false, false, false;
      closeErr, terminalRuns := None, 0;
      core := NEW_SESSION;
    }

    method MarkConnected()
      requires Valid()
      modifies this
      ensures Valid() && core == SessionSteps.MarkConnected(old(core)) && connected
      ensures recorder == old(recorder) && disconnectTimer == old(disconnectTimer) && expiryTimer == old(expiryTimer)
      ensures closeErr == old(closeErr)
    {
      MarkConnectedKeeps(core, 0);
      connected := true;
      core := SessionSteps.MarkConnected(core);
    }

    /** `startRecorder`; `closeLater` tells that it started a goroutine that closes the session. */
    method StartRecorder(created: bool) returns (handed: OggRecorder?, closeLater: bool)
      requires Valid()
      modifies this
      ensures Valid() && core == Tracked(old(core), created)
      ensures handed != null <==> !old(audioClaimed) && !old(cancelled) && created
      ensures handed != null ==> fresh(handed) && recorder == handed && handed.State() == NEW_RECORDER
      ensures handed == null ==> recorder == old(recorder)
      ensures closeLater <==> !old(audioClaimed) && !old(cancelled) && !created
      ensures audioClaimed == (old(audioClaimed) || !old(cancelled))
      ensures disconnectTimer == old(disconnectTimer) && expiryTimer == old(expiryTimer) && closeErr == old(closeErr)
    {
      TrackedKeeps(core, created);
      handed, closeLater := null, false;
      if audioClaimed || cancelled {
        return;
      }
      core := Tracked(core, created);
      audioClaimed := true;
      if !created {
        closeLater := true;
        return;
      }
      handed := new OggRecorder();
      recorder := handed;
    }

    /** `setExpiryTimer` with a timer that `time.AfterFunc` has started. */
    method SetExpiryTimer(timer: Timer)
      requires Valid() && expiryTimer == null && timer != disconnectTimer
      requires timer.armed == core.expiryArmed && TimerKnown(core)
      modifies this, timer
      ensures Valid() && core == ExpirySet(old(core))
      ensures expiryTimer == if old(cancelled) then null else timer
      ensures timer.armed == (old(timer.armed) && !old(cancelled))
      ensures recorder == old(recorder) && disconnectTimer == old(disconnectTimer) && closeErr == old(closeErr)
    {
      ExpirySetKeeps(core);
      core := ExpirySet(core);
      if cancelled {
        timer.Stop();
      } else {
        expiryTimer := timer;
      }
    }

    method StopDisconnectTimer()
      modifies this`disconnectTimer, disconnectTimer
      ensures disconnectTimer == null
      ensures old(disconnectTimer) != null ==> !old(disconnectTimer).armed
    {
      if disconnectTimer != null {
        disconnectTimer.Stop();
        disconnectTimer := null;
      }
    }

    /** The fields that the critical section of `handlePeerConnectionState` sets. */
    method NotePeerState(state: PeerState)
      modifies this`disconnectGeneration, this`peerState, this`disconnectTimer, disconnectTimer
      ensures disconnectGeneration == old(disconnectGeneration) + 1 && peerState == state
      ensures old(disconnectTimer) != null ==> !old(disconnectTimer).armed
      ensures disconnectTimer != null <==> state == Disconnected && !cancelled
      ensures disconnectTimer != null ==> fresh(disconnectTimer) && disconnectTimer.armed
    {
      disconnectGeneration := disconnectGeneration + 1;
      peerState := state;
      StopDisconnectTimer();
      if state == Disconnected && !cancelled {
        disconnectTimer := new Timer();
      }
    }

    /** The critical section of `handlePeerConnectionState`. */
    method RecordPeerState(state: PeerState)
      requires Valid()
      modifies this, disconnectTimer
      ensures Valid() && core == PeerHandled(old(core), state)
      ensures old(disconnectTimer) != null ==> !old(disconnectTimer).armed
      ensures disconnectTimer != null <==> state == Disconnected && !cancelled
      ensures disconnectTimer != null ==> fresh(disconnectTimer) && disconnectTimer.armed
      ensures disconnectGeneration == old(disconnectGeneration) + 1 && peerState == state
      ensures recorder == old(recorder) && expiryTimer == old(expiryTimer) && closeErr == old(closeErr)
      ensures audioPrimeStopped == old(audioPrimeStopped)
    {
      PeerHandledKeeps(core, state);
      NotePeerState(state);
      core := PeerHandled(core, state);
    }

    /** Whether `startAudioPrime` has anything to start. */
    predicate PrimeReady() {
      audioPrimeEnabled && audioPrimeWriter
    }

    /** `startAudioPrime`: at most one runner, whatever the number of calls, and none without a writer. */
    method StartAudioPrime() returns (started: bool)
      requires Valid()
      modifies this`audioPrimeCancel, this`audioPrimeOnce, this`core
      ensures Valid() && core == if PrimeReady() then Primed(old(core)) else old(core)
      ensures started <==> PrimeReady() && !old(cancelled) && !old(audioPrimeOnce)
      ensures audioPrimeCancel == (old(audioPrimeCancel) || started)
                && audioPrimeOnce == (old(audioPrimeOnce) || started)
    {
      PrimedKeeps(core);
      started := false;
      if !audioPrimeEnabled || !audioPrimeWriter || cancelled {
        return;
      }
      if !audioPrimeOnce {
        audioPrimeCancel := true;
        audioPrimeOnce := true;
        started := true;
        core := Primed(core);
      }
    }

    /** `stopAudioPrime`: the runner's context, if there is one, is done afterwards. */
    method StopAudioPrime()
      requires Valid()
      modifies this`audioPrimeStopped, this`core
      ensures Valid() && core == PrimeStoppedBy(old(core))
      ensures audioPrimeStopped == (old(audioPrimeStopped) || audioPrimeCancel)
    {
      PrimeStoppedKeeps(core);
      core := PrimeStoppedBy(core);
      if audioPrimeCancel {
        audioPrimeStopped := true;
      }
    }

    /** What follows the critical section of `handlePeerConnectionState`. */
    method React(state: PeerState) returns (primed: bool, closeLater: bool)
      requires Valid()
      modifies this`audioPrimeCancel, this`audioPrimeOnce, this`audioPrimeStopped, this`core
      ensures Valid()
      ensures core == if state == Connected && PrimeReady() then Primed(old(core))
                      else if closeLater then PrimeStoppedBy(old(core)) else old(core)
      ensures primed <==> state == Connected && PrimeReady() && !cancelled && !old(audioPrimeOnce)
      ensures closeLater <==> state == Failed || state == PeerClosed
      ensures audioPrimeStopped == (old(audioPrimeStopped) || (closeLater && old(audioPrimeCancel)))
    {
      primed, closeLater := false, false;
      if state == Connected {
        primed := StartAudioPrime();
      }
      if state == Failed || state == PeerClosed {
        StopAudioPrime();
        closeLater := true;
      }
    }

    /** `handlePeerConnectionState`. */
    method HandlePeerConnectionState(state: PeerState) returns (primed: bool, closeLater: bool)
      requires Valid()
      modifies this, disconnectTimer
      ensures Valid()
      ensures core == if state == Connected && PrimeReady() then Primed(PeerHandled(old(core), state))
                      else if closeLater then PrimeStoppedBy(PeerHandled(old(core), state))
                      else PeerHandled(old(core), state)
      ensures primed <==> state == Connected && PrimeReady() && !old(cancelled) && !old(audioPrimeOnce)
      ensures closeLater <==> state == Failed || state == PeerClosed
      ensures disconnectGeneration == old(disconnectGeneration) + 1 && peerState == state
      ensures old(disconnectTimer) != null ==> !old(disconnectTimer).armed
      ensures disconnectTimer != null <==> state == Disconnected && !old(cancelled)
      ensures disconnectTimer != null ==> fresh(disconnectTimer) && disconnectTimer.armed
      ensures audioPrimeStopped == (old(audioPrimeStopped) || (closeLater && old(audioPrimeCancel)))
      ensures recorder == old(recorder) && expiryTimer == old(expiryTimer) && closeErr == old(closeErr)
    {
      RecordPeerState(state);
      primed, closeLater := React(state);
    }

    /** What the body of `Close` does under `stateMu`: both timers and the recorder leave the session. */
    method TakeOut() returns (taken: OggRecorder?)
      requires disconnectTimer != null && expiryTimer != null ==> disconnectTimer != expiryTimer
      modifies this`disconnectTimer, this`expiryTimer, this`recorder, disconnectTimer, expiryTimer
      ensures taken == old(recorder) && recorder == null && disconnectTimer == null && expiryTimer == null
      ensures old(disconnectTimer) != null ==> !old(disconnectTimer).armed
      ensures old(expiryTimer) != null ==> !old(expiryTimer).armed
    {
      StopDisconnectTimer();
      if expiryTimer != null {
        expiryTimer.Stop();
        expiryTimer := null;
      }
      taken := recorder;
      recorder := null;
    }

    /** The rest of that body: the recorder, then the peer connection; the first failure is kept. */
    method CloseParts(taken: OggRecorder?, recorderOk: bool, peerOk: bool)
      requires closeErr == None
      requires taken != null ==> !taken.closed && Disciplined(taken.State())
      modifies this`closeErr, taken
      ensures closeErr == FirstError(taken != null, recorderOk, peerOk)
      ensures taken != null ==> taken.State() == ClosedOnce(old(taken.State()))
    {
      if taken != null {
        var ok := taken.Close(recorderOk);
        if !ok {
          closeErr := Some(RecorderCloseFailed);
        }
      }
      if !peerOk && closeErr == None {
        closeErr := Some(PeerCloseFailed);
      }
    }

    /** The body of `closeOnce`. */
    method CloseBody(recorderOk: bool, peerOk: bool)
      requires closeErr == None
      requires recorder != null ==> !recorder.closed && Disciplined(recorder.State())
      requires disconnectTimer != null && expiryTimer != null ==> disconnectTimer != expiryTimer
      modifies this`cancelled, this`audioPrimeStopped, this`recorder, this`disconnectTimer, this`expiryTimer
      modifies this`closeErr, this`terminalRuns, this`closeOnce
      modifies recorder, disconnectTimer, expiryTimer
      ensures cancelled && closeOnce && terminalRuns == old(terminalRuns) + 1
      ensures closeErr == FirstError(old(recorder) != null, recorderOk, peerOk)
      ensures audioPrimeStopped == (old(audioPrimeStopped) || audioPrimeCancel)
      ensures recorder == null && disconnectTimer == null && expiryTimer == null
      ensures old(recorder) != null ==> old(recorder).State() == ClosedOnce(old(recorder.State()))
      ensures old(disconnectTimer) != null ==> !old(disconnectTimer).armed
      ensures old(expiryTimer) != null ==> !old(expiryTimer).armed
    {
      cancelled := true;
      if audioPrimeCancel {
        audioPrimeStopped := true;
      }
      var taken := TakeOut();
      CloseParts(taken, recorderOk, peerOk);
      terminalRuns := terminalRuns + 1;
      closeOnce := true;
    }

    /** `Close`: the first call does the work, every call reports the first call's error. */
    method Close(recorderOk: bool, peerOk: bool) returns (error: Option<CloseError>)
      requires Valid() && (!closeOnce ==> closeErr == None)
      modifies this, recorder, disconnectTimer, expiryTimer
      ensures Valid() && core == Closed(old(core))
      ensures closeOnce && cancelled && terminalRuns == 1
      ensures audioPrimeStopped == (old(audioPrimeStopped) || (!old(closeOnce) && old(audioPrimeCancel)))
      ensures error == closeErr
      ensures error == if old(closeOnce) then old(closeErr) else FirstError(old(recorder) != null, recorderOk, peerOk)
      ensures !old(closeOnce) && old(recorder) != null && !recorderOk ==> error == Some(RecorderCloseFailed)
      ensures !old(closeOnce) && (old(recorder) == null || recorderOk) ==>
                error == if peerOk then None else Some(PeerCloseFailed)
      ensures recorder == null && disconnectTimer == null && expiryTimer == null
      ensures old(recorder) != null ==> old(recorder).State() == ClosedOnce(old(recorder.State()))
      ensures old(disconnectTimer) != null ==> !old(disconnectTimer).armed
      ensures old(expiryTimer) != null ==> !old(expiryTimer).armed
    {
      ClosedEndsAll(core);
      if !closeOnce {
        CloseBody(recorderOk, peerOk);
        core := Closed(core);
      }
      error := closeErr;
    }

    /** `closeIfStillDisconnected`, run by the grace timer of that generation after it fired. */
    method CloseIfStillDisconnected(generation: nat, recorderOk: bool, peerOk: bool) returns (closed: bool)
      requires Valid() && (!closeOnce ==> closeErr == None) && generation in core.graceFired
      modifies this, recorder, disconnectTimer, expiryTimer
      ensures Valid()
      ensures closed <==> !old(cancelled) && old(peerState) == Disconnected && old(disconnectGeneration) == generation
      ensures core == if closed then Closed(CheckGrace(old(core), generation)) else old(core)
      ensures closed ==> closeOnce && cancelled && recorder == null && disconnectTimer == null && expiryTimer == null
    {
      closed := !cancelled && peerState == Disconnected && disconnectGeneration == generation;
      if closed {
        CheckGraceKeeps(core, 0, generation);
        disconnectTimer := null;
        core := CheckGrace(core, generation);
        var _ := Close(recorderOk, peerOk);
      }
    }
  }
}
