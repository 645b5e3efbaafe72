/**
 * The critical sections of one session as functions on its state. A section that reads the context and then acts on
 * what it read is two steps: `cancel()` runs outside `stateMu` and can fall between them.
 */
module SessionSteps {
  import opened GoText
  import opened Recording
  import opened PrimeSteps

  datatype PeerState = New | Connecting | Connected | Disconnected | Failed | PeerClosed

  /** `sync.Once`: a late caller waits until the running one is done. */
  datatype Once = Fresh | Running(runner: nat) | Finished

  /** Who holds `stateMu` after a successful check, and what it is about to do. */
  datatype Work = CreateRecorder | ArmGrace(generation: nat) | StoreExpiry | StorePrime
  datatype Mutex = Free | Held(holder: nat, work: Work)

  /** How far the body of `closeOnce` has come. */
  datatype Phase =
    | NotClosing
    | Entered
    | Cancelled
    | PrimeStopped
    | Drained(taken: bool)
    | RecorderDone
    | PeerDone
    | Terminal

  function Rank(p: Phase): nat {
    match p
    case NotClosing => 0
    case Entered => 1
    case Cancelled => 2
    case PrimeStopped => 3
    case Drained(_) => 4
    case RecorderDone => 5
    case PeerDone => 6
    case Terminal => 7
  }

  datatype Session = Session(
    cancelled: bool,               // ctx.Err() != nil
    connected: bool,
    audioClaimed: bool,
    recorder: bool,                // s.recorder != nil
    created: nat,                  // recorders handed out by the factory
    recording: Recorder,           // that recorder's own state
    recorderCloses: nat,           // recorder.Close() calls made by Close
    delivered: seq<PeerState>,     // every peer state delivered so far
    generation: nat,
    peerState: PeerState,
    graceStored: Option<nat>,      // s.disconnectTimer, by the generation its callback captured
    graceArmed: set<nat>,          // timers neither fired nor stopped
    graceFired: set<nat>,
    expiryStored: bool,            // s.expiryTimer != nil
    expiryArmed: bool,
    expiryFired: bool,
    prime: Prime,
    primeOnce: Once,
    closeOnce: Once,
    phase: Phase,
    mu: Mutex)

  const NEW_SESSION := Session(
    false, false, false, false, 0, NEW_RECORDER, 0, [], 0, New, None, {}, {}, false, false, false, NO_PRIME, Fresh,
    Fresh, NotClosing, Free)

  predicate HeldFor(s: Session, t: nat, w: Work) {
    s.mu == Held(t, w)
  }

  // ---- startRecorder, session.go:77-93 ----

  function LockTrack(s: Session, t: nat): Session {
    if s.audioClaimed || s.cancelled then s else s.(mu := Held(t, CreateRecorder))
  }

  function FinishTrack(s: Session, ok: bool): Session {
    var claimed := s.(audioClaimed := true, mu := Free);
    if ok then claimed.(recorder := true, created := s.created + 1, recording := NEW_RECORDER) else claimed
  }

  /** recordTrack, session.go:104. */
  function WritePacket(s: Session): Session {
    s.(recording := Written(s.recording, true))
  }

  // ---- handlePeerConnectionState, session.go:136-149 ----

  /** The armed timers once the stored one is stopped. */
  function StopGrace(s: Session): set<nat> {
    if s.graceStored.Some? then s.graceArmed - {s.graceStored.value} else s.graceArmed
  }

  function LockPeer(s: Session, t: nat, state: PeerState): Session {
    s.(delivered := s.delivered + [state],
       generation := s.generation + 1,
       peerState := state,
       graceArmed := StopGrace(s),
       graceStored := None,
       mu := if state == Disconnected && !s.cancelled then Held(t, ArmGrace(s.generation + 1)) else s.mu)
  }

  function FinishPeer(s: Session, generation: nat): Session {
    s.(graceStored := Some(generation), graceArmed := s.graceArmed + {generation}, mu := Free)
  }

  function FireGrace(s: Session, generation: nat): Session {
    s.(graceArmed := s.graceArmed - {generation}, graceFired := s.graceFired + {generation})
  }

  // ---- closeIfStillDisconnected, session.go:213-221 ----

  predicate StillDisconnected(s: Session, generation: nat) {
    !s.cancelled && s.peerState == Disconnected && s.generation == generation
  }

  function CheckGrace(s: Session, generation: nat): Session {
    if StillDisconnected(s, generation) then s.(graceStored := None) else s
  }

  // ---- time.AfterFunc and setExpiryTimer, session_manager.go:63-65, session.go:126-134 ----

  function ArmExpiry(s: Session): Session {
    s.(expiryArmed := true)
  }

  function LockExpiry(s: Session, t: nat): Session {
    s.(expiryArmed := s.expiryArmed && !s.cancelled, mu := if s.cancelled then s.mu else Held(t, StoreExpiry))
  }

  function FinishExpiry(s: Session): Session {
    s.(expiryStored := true, mu := Free)
  }

  function FireExpiry(s: Session): Session {
    s.(expiryArmed := false, expiryFired := true)
  }

  // ---- startAudioPrime, session.go:163-202 ----

  function EnterPrime(s: Session, t: nat): Session {
    s.(primeOnce := Running(t))
  }

  function LockPrime(s: Session, t: nat): Session {
    if s.cancelled then s.(primeOnce := Finished) else s.(mu := Held(t, StorePrime))
  }

  /** `stateMu` is free again before the runner starts: a whole `Close` can fall in between. */
  function StorePrimeCancel(s: Session): Session {
    s.(prime := StoreCancel(s.prime), mu := Free)
  }

  function StartRunner(s: Session): Session {
    s.(prime := Start(s.prime))
  }

  function LeavePrime(s: Session): Session {
    s.(primeOnce := Finished)
  }

  /** `primeCtx.Err() != nil`: the context of the runner is a child of the session's. */
  predicate PrimeDone(s: Session) {
    s.cancelled || s.prime.stopped
  }

  // ---- the runner's goroutine, session.go:178-201 and audio_prime.go:70-91 ----

  function BeginRunner(s: Session, t: nat): Session {
    s.(prime := Begin(s.prime, t, PrimeDone(s)))
  }

  function RunnerWrites(s: Session, ok: bool): Session {
    s.(prime := WriteOne(s.prime, PrimeDone(s), ok))
  }

  // ---- stopAudioPrime, session.go:204-211: the call of the cancel function that was read under stateMu ----

  function CutPrime(s: Session): Session {
    s.(prime := Cut(s.prime))
  }

  function MarkConnected(s: Session): Session {
    s.(connected := true)
  }

  // ---- Close, session.go:227-259 ----

  function EnterClose(s: Session, t: nat): Session {
    s.(closeOnce := Running(t), phase := Entered)
  }

  function Cancel(s: Session): Session {
    s.(cancelled := true, phase := Cancelled)
  }

  /** `stopAudioPrime` inside `Close`: the runner's context is done with the session's, its own cancel adds nothing. */
  function StopPrime(s: Session): Session {
    s.(phase := PrimeStopped)
  }

  /** Stop and forget both timers, take the recorder out. */
  function Drain(s: Session): Session {
    s.(graceArmed := StopGrace(s),
       graceStored := None,
       expiryArmed := s.expiryArmed && !s.expiryStored,
       expiryStored := false,
       recorder := false,
       phase := Drained(s.recorder))
  }

  function CloseRecorder(s: Session): Session
    requires s.phase.Drained?
  {
    s.(recording := if s.phase.taken then ClosedOnce(s.recording) else s.recording,
       recorderCloses := if s.phase.taken then s.recorderCloses + 1 else s.recorderCloses,
       phase := RecorderDone)
  }

  function ClosePeer(s: Session): Session {
    s.(phase := PeerDone)
  }

  function RunTerminal(s: Session): Session {
    s.(phase := Terminal)
  }

  function FinishClose(s: Session): Session {
    s.(closeOnce := Finished)
  }

  /** The next step of the body of `closeOnce`. */
  function BodyNext(s: Session): Session {
    match s.phase
    case NotClosing => s
    case Entered => Cancel(s)
    case Cancelled => StopPrime(s)
    case PrimeStopped => Drain(s)
    case Drained(_) => CloseRecorder(s)
    case RecorderDone => ClosePeer(s)
    case PeerDone => RunTerminal(s)
    case Terminal => FinishClose(s)
  }

  // ---- what every step keeps ----

  predicate CloseInv(s: Session) {
    && (s.closeOnce.Fresh? <==> s.phase.NotClosing?)
    && (s.closeOnce.Finished? ==> s.phase.Terminal?)
    && (s.cancelled <==> Rank(s.phase) >= 2)
  }

  /** At most one recorder; `Close` takes it out of the field once and closes it once. */
  predicate RecorderInv(s: Session) {
    && s.created <= 1
    && (!s.audioClaimed ==> s.created == 0)
    && (s.recorder <==> s.created == 1 && Rank(s.phase) < 4)
    && (s.phase.Drained? ==> (s.phase.taken <==> s.created == 1))
    && s.recorderCloses == (if Rank(s.phase) >= 5 then s.created else 0)
    && (s.recording.closed <==> s.created == 1 && Rank(s.phase) >= 5)
    && (s.created == 0 ==> s.recording == NEW_RECORDER)
    && Disciplined(s.recording)
  }

  /** A stored grace timer is the one of the last delivered state, which is Disconnected. */
  predicate GraceInv(s: Session) {
    && s.generation == |s.delivered|
    && (s.delivered != [] ==> s.peerState == s.delivered[|s.delivered| - 1])
    && (s.delivered == [] ==> s.peerState == New)
    && (s.graceStored.Some? ==>
          && s.graceStored.value == s.generation
          && s.peerState == Disconnected
          && Rank(s.phase) < 4)
    && (forall g :: g in s.graceArmed ==> s.graceStored == Some(g) && g !in s.graceFired)
    && (forall g :: g in s.graceFired ==> g <= s.generation)
  }

  predicate TimerInv(s: Session) {
    s.expiryStored ==> Rank(s.phase) < 4 && TimerKnown(s)
  }

  /** The once that guards the prime comes before it; a once that is over has left a runner for a stored cancel. */
  predicate PrimeInv(s: Session) {
    && PrimeOk(s.prime, PrimeDone(s))
    && (s.primeOnce.Fresh? ==> !s.prime.stored)
    && (s.primeOnce.Finished? && s.prime.stored ==> s.prime.started == 1)
  }

  /** What the holder of `stateMu` has checked still holds, whatever `cancel()` did since. */
  predicate WorkInv(s: Session, holder: nat, work: Work) {
    && Rank(s.phase) <= 2
    && match work
       case CreateRecorder => !s.audioClaimed
       case ArmGrace(g) =>
         g == s.generation && s.peerState == Disconnected && s.graceStored == None && g !in s.graceFired
       case StoreExpiry => TimerKnown(s)
       case StorePrime => s.primeOnce == Running(holder) && !s.prime.stored
  }

  predicate SessionInv(s: Session) {
    && CloseInv(s) && RecorderInv(s) && GraceInv(s) && TimerInv(s) && PrimeInv(s)
    && (s.mu.Held? ==> WorkInv(s, s.mu.holder, s.mu.work))
  }

  /** The expiry timer was not lost: it can still fire, has fired, or is not needed any more. */
  predicate TimerKnown(s: Session) {
    s.expiryArmed || s.expiryFired || s.cancelled
  }

  /** With a TTL a created session is cancelled, has its live expiry timer stored, or has expired. */
  predicate Covered(s: Session) {
    s.cancelled || (s.expiryStored && s.expiryArmed) || s.expiryFired
  }

  predicate Extends(states: seq<PeerState>, states': seq<PeerState>) {
    |states| <= |states'| && states'[..|states|] == states
  }

  /**
   * Once `Close` has been through `stateMu`, nothing new starts; once the recorder is closed, its writer is left
   * alone.
   */
  predicate Sealed(s: Session, s': Session) {
    && (Rank(s.phase) >= 3 ==> s'.created == s.created && s'.prime.stored == s.prime.stored)
    && (Rank(s.phase) >= 5 ==> s'.recording == s.recording)
  }

  /** Progress is never undone. */
  predicate Forward(s: Session, s': Session) {
    && Rank(s.phase) <= Rank(s'.phase)
    && (s.cancelled ==> s'.cancelled)
    && (s'.prime == s.prime || PrimeForward(s.prime, s'.prime, PrimeDone(s)))
    && s.created <= s'.created
    && s.graceFired <= s'.graceFired
    && Extends(s.delivered, s'.delivered)
    && (TimerKnown(s) ==> TimerKnown(s'))
    && (Covered(s) ==> Covered(s'))
    && Sealed(s, s')
  }

  /** What others hold, they keep; what is new, t holds. */
  predicate OthersKeep(s: Session, s': Session, t: nat) {
    && (s.mu.Held? && s.mu.holder != t ==> s'.mu == s.mu)
    && (s'.mu.Held? ==> s'.mu.holder == t || s'.mu == s.mu)
    && (s.primeOnce.Running? && s.primeOnce.runner != t ==> s'.primeOnce == s.primeOnce)
    && (s'.primeOnce.Running? ==> s'.primeOnce.runner == t || s'.primeOnce == s.primeOnce)
    && (s.primeOnce.Running? && s.primeOnce.runner != t ==>
          s'.prime.stored == s.prime.stored && s'.prime.started == s.prime.started)
    && (s.prime.runner.RunBy? && s.prime.runner.thread != t ==> s'.prime.rounds == s.prime.rounds)
    && (s'.closeOnce.Running? ==> s'.closeOnce.runner == t || s'.closeOnce == s.closeOnce)
  }

  /** What a step of thread t may do to a session seen from everybody else. */
  predicate StepOf(s: Session, s': Session, t: nat) {
    && (s.closeOnce.Running? && s.closeOnce.runner != t ==> s'.closeOnce == s.closeOnce)
    && (s.closeOnce.Running? ==> s'.closeOnce != Fresh)
    && (s.closeOnce.Finished? ==> s'.closeOnce == Finished)
    && Forward(s, s') && OthersKeep(s, s', t)
  }

  lemma LockTrackKeeps(s: Session, t: nat)
    requires SessionInv(s)
    requires s.mu.Free?
    ensures SessionInv(LockTrack(s, t)) && StepOf(s, LockTrack(s, t), t)
  {
  }

  lemma FinishTrackKeeps(s: Session, t: nat, ok: bool)
    requires SessionInv(s)
    requires HeldFor(s, t, CreateRecorder)
    ensures SessionInv(FinishTrack(s, ok)) && StepOf(s, FinishTrack(s, ok), t)
  {
  }

  lemma RecordingKeeps(s: Session, r: Recorder, t: nat)
    requires SessionInv(s) && s.created == 1
    requires Disciplined(r) && r.closed == s.recording.closed && (r.closed ==> r == s.recording)
    ensures SessionInv(s.(recording := r)) && StepOf(s, s.(recording := r), t)
  {
  }

  lemma WritePacketKeeps(s: Session, t: nat)
    requires SessionInv(s)
    requires s.created == 1
    ensures SessionInv(WritePacket(s)) && StepOf(s, WritePacket(s), t)
  {
    assert RecorderInv(s);
    RecorderDiscipline(s.recording, true);
    RecordingKeeps(s, Written(s.recording, true), t);
  }

  lemma LockPeerKeeps(s: Session, t: nat, state: PeerState)
    requires SessionInv(s)
    requires s.mu.Free?
    ensures SessionInv(LockPeer(s, t, state)) && StepOf(s, LockPeer(s, t, state), t)
  {
  }

  lemma FinishPeerKeeps(s: Session, t: nat, g: nat)
    requires SessionInv(s)
    requires HeldFor(s, t, ArmGrace(g))
    ensures SessionInv(FinishPeer(s, g)) && StepOf(s, FinishPeer(s, g), t)
  {
  }

  lemma FireGraceKeeps(s: Session, t: nat, g: nat)
    requires SessionInv(s)
    requires g in s.graceArmed
    ensures SessionInv(FireGrace(s, g)) && StepOf(s, FireGrace(s, g), t)
  {
  }

  lemma GraceClearedKeeps(s: Session, t: nat)
    requires SessionInv(s)
    requires s.mu.Free? && s.graceArmed == {}
    ensures SessionInv(s.(graceStored := None)) && StepOf(s, s.(graceStored := None), t)
  {
  }

  lemma CheckGraceKeeps(s: Session, t: nat, g: nat)
    requires SessionInv(s)
    requires s.mu.Free? && g in s.graceFired
    ensures SessionInv(CheckGrace(s, g)) && StepOf(s, CheckGrace(s, g), t)
  {
    assert GraceInv(s);
    if StillDisconnected(s, g) {
      GraceClearedKeeps(s, t);
    }
  }

  lemma ArmExpiryKeeps(s: Session, t: nat)
    requires SessionInv(s)
    ensures SessionInv(ArmExpiry(s)) && StepOf(s, ArmExpiry(s), t)
  {
  }

  lemma LockExpiryKeeps(s: Session, t: nat)
    requires SessionInv(s)
    requires s.mu.Free? && TimerKnown(s)
    ensures SessionInv(LockExpiry(s, t)) && StepOf(s, LockExpiry(s, t), t)
  {
  }

  lemma FinishExpiryKeeps(s: Session, t: nat)
    requires SessionInv(s)
    requires HeldFor(s, t, StoreExpiry)
    ensures SessionInv(FinishExpiry(s)) && StepOf(s, FinishExpiry(s), t)
  {
  }

  lemma FireExpiryKeeps(s: Session, t: nat)
    requires SessionInv(s)
    requires s.expiryArmed
    ensures SessionInv(FireExpiry(s)) && StepOf(s, FireExpiry(s), t)
  {
  }

  lemma EnterPrimeKeeps(s: Session, t: nat)
    requires SessionInv(s)
    requires s.primeOnce.Fresh?
    ensures SessionInv(EnterPrime(s, t)) && StepOf(s, EnterPrime(s, t), t)
  {
  }

  lemma PrimeHeldKeeps(s: Session, t: nat)
    requires SessionInv(s)
    requires s.mu.Free? && s.primeOnce == Running(t) && !s.cancelled && !s.prime.stored
    ensures SessionInv(s.(mu := Held(t, StorePrime))) && StepOf(s, s.(mu := Held(t, StorePrime)), t)
  {
  }

  lemma LockPrimeKeeps(s: Session, t: nat)
    requires SessionInv(s)
    requires s.mu.Free? && s.primeOnce == Running(t) && !s.prime.stored
    ensures SessionInv(LockPrime(s, t)) && StepOf(s, LockPrime(s, t), t)
  {
    if s.cancelled {
      LeavePrimeKeeps(s, t);
    } else {
      PrimeHeldKeeps(s, t);
    }
  }

  lemma StorePrimeCancelKeeps(s: Session, t: nat)
    requires SessionInv(s)
    requires HeldFor(s, t, StorePrime)
    ensures SessionInv(StorePrimeCancel(s)) && StepOf(s, StorePrimeCancel(s), t)
  {
    StoreKeeps(s.prime, PrimeDone(s));
  }

  /** A step that changes the prime alone, and keeps it, keeps the session. */
  lemma PrimeChangeKeeps(s: Session, p: Prime, t: nat)
    requires SessionInv(s) && PrimeForward(s.prime, p, PrimeDone(s)) && PrimeOk(p, s.cancelled || p.stopped)
    requires p.stored == s.prime.stored
    requires p.started == s.prime.started || s.primeOnce == Running(t)
    requires p.rounds == s.prime.rounds || (s.prime.runner.RunBy? && s.prime.runner.thread == t)
    ensures SessionInv(s.(prime := p)) && StepOf(s, s.(prime := p), t)
  {
  }

  lemma StartRunnerKeeps(s: Session, t: nat)
    requires SessionInv(s)
    requires s.primeOnce == Running(t) && s.prime.stored && s.prime.started == 0
    ensures SessionInv(StartRunner(s)) && StepOf(s, StartRunner(s), t)
  {
    StartKeeps(s.prime, PrimeDone(s));
    PrimeChangeKeeps(s, Start(s.prime), t);
  }

  lemma LeavePrimeKeeps(s: Session, t: nat)
    requires SessionInv(s)
    requires s.primeOnce == Running(t) && (s.prime.stored ==> s.prime.started == 1)
    requires s.mu.Held? ==> s.mu.holder != t
    ensures SessionInv(LeavePrime(s)) && StepOf(s, LeavePrime(s), t)
  {
  }

  lemma BeginRunnerKeeps(s: Session, t: nat)
    requires SessionInv(s)
    requires s.prime.runner.Scheduled?
    ensures SessionInv(BeginRunner(s, t)) && StepOf(s, BeginRunner(s, t), t)
  {
    BeginKeeps(s.prime, t, PrimeDone(s));
    PrimeChangeKeeps(s, Begin(s.prime, t, PrimeDone(s)), t);
  }

  lemma RunnerWritesKeeps(s: Session, t: nat, ok: bool)
    requires SessionInv(s)
    requires s.prime.runner == RunBy(t, false) && LastOk(s.prime) && LastInTime(s.prime)
    ensures SessionInv(RunnerWrites(s, ok)) && StepOf(s, RunnerWrites(s, ok), t)
  {
    WriteKeeps(s.prime, PrimeDone(s), ok);
    PrimeChangeKeeps(s, WriteOne(s.prime, PrimeDone(s), ok), t);
  }

  lemma CutPrimeKeeps(s: Session, t: nat)
    requires SessionInv(s)
    requires s.prime.stored
    ensures SessionInv(CutPrime(s)) && StepOf(s, CutPrime(s), t)
  {
    CutKeeps(s.prime, PrimeDone(s));
    PrimeChangeKeeps(s, Cut(s.prime), t);
  }

  lemma MarkConnectedKeeps(s: Session, t: nat)
    requires SessionInv(s)
    requires s.mu.Free?
    ensures SessionInv(MarkConnected(s)) && StepOf(s, MarkConnected(s), t)
  {
  }

  lemma EnterCloseKeeps(s: Session, t: nat)
    requires SessionInv(s)
    requires s.closeOnce.Fresh?
    ensures SessionInv(EnterClose(s, t)) && StepOf(s, EnterClose(s, t), t)
  {
  }

  lemma CancelKeeps(s: Session, t: nat)
    requires SessionInv(s)
    requires s.closeOnce == Running(t) && s.phase.Entered?
    ensures SessionInv(Cancel(s)) && StepOf(s, Cancel(s), t)
  {
  }

  lemma StopPrimeKeeps(s: Session, t: nat)
    requires SessionInv(s)
    requires s.closeOnce == Running(t) && s.phase.Cancelled? && s.mu.Free?
    ensures SessionInv(StopPrime(s)) && StepOf(s, StopPrime(s), t)
  {
  }

  lemma DrainKeeps(s: Session, t: nat)
    requires SessionInv(s)
    requires s.closeOnce == Running(t) && s.phase.PrimeStopped? && s.mu.Free?
    ensures SessionInv(Drain(s)) && StepOf(s, Drain(s), t)
  {
  }

  lemma CloseRecorderKeeps(s: Session, t: nat)
    requires SessionInv(s)
    requires s.closeOnce == Running(t) && s.phase.Drained?
    ensures SessionInv(CloseRecorder(s)) && StepOf(s, CloseRecorder(s), t)
  {
    RecorderDiscipline(s.recording, true);
  }

  lemma ClosePeerKeeps(s: Session, t: nat)
    requires SessionInv(s)
    requires s.closeOnce == Running(t) && s.phase.RecorderDone?
    ensures SessionInv(ClosePeer(s)) && StepOf(s, ClosePeer(s), t)
  {
  }

  lemma RunTerminalKeeps(s: Session, t: nat)
    requires SessionInv(s)
    requires s.closeOnce == Running(t) && s.phase.PeerDone?
    ensures SessionInv(RunTerminal(s)) && StepOf(s, RunTerminal(s), t)
  {
  }

  lemma FinishCloseKeeps(s: Session, t: nat)
    requires SessionInv(s)
    requires s.closeOnce == Running(t) && s.phase.Terminal?
    ensures SessionInv(FinishClose(s)) && StepOf(s, FinishClose(s), t)
  {
  }
}
