/** Every step of the lifecycle protocol keeps its invariant. */
module ProtocolSteps {
  import opened GoText
  import opened SessionSteps
  import opened Protocol
  import opened ProtocolInvariant

  /** The thread holds something of the session: a lock or a running once body. */
  predicate HasStake(th: Thread, s: nat) {
    || InPrime(th, s)
    || InClose(th, s)
    || th == TrackLocked(s)
    || (th.PeerLocked? && th.session == s)
    || (th.StoringTtl? && th.session == s)
  }

  /** Thread t (if it exists) has a stake in session s alone. */
  ghost predicate OnlyStake(st: State, t: nat, s: nat) {
    t in st.threads ==> forall x :: x != s ==> !HasStake(st.threads[t], x)
  }

  ghost predicate KeepsDebts(st: State, t: nat, s: nat, core: Session, next: Thread) {
    t in st.threads ==>
      && (forall x :: !Pending(st.threads[t], x))
      && (forall x :: Owes(st.threads[t], x) ==> Owes(next, x) || (x == s && core.closeOnce != Fresh))
  }

  predicate KeepsCreate(st: State, t: nat, next: Thread) {
    && EntryOf(next) == (if t in st.threads then EntryOf(st.threads[t]) else None)
    && SessionOf(next) == (if t in st.threads then SessionOf(st.threads[t]) else None)
  }

  lemma InsideFrame(st: State, t: nat, s: nat, core: Session, next: Thread)
    requires Inv(st) && s in st.live && StepOf(st.live[s].core, core, t)
    ensures var st' := Inside(st, t, s, core, next);
            Evolves(st, st', t) && MapOk(st') && (forall e :: e in st.entries ==> Bound(st', e) == Bound(st, e))
  {
    var st' := Inside(st, t, s, core, next);
    MapOf(st);
    forall x | x in st.live
      ensures StepOf(st.live[x].core, st'.live[x].core, t)
    {
    }
  }

  /** A thread without a stake in a session holds nothing of it. */
  lemma NothingGranted(st: State, t: nat, x: nat, next: Thread)
    requires Inv(st) && x in st.live
    requires t in st.threads ==> !HasStake(st.threads[t], x)
    ensures Granted(st.live[x].core, t, next, x)
  {
    LiveIn(st, x);
  }

  lemma InsideAnswers(st: State, t: nat, s: nat, core: Session, next: Thread, x: nat)
    requires Inv(st) && s in st.live && SessionInv(core)
    requires OnlyStake(st, t, s) && Granted(core, t, next, s)
    requires core.phase.Terminal? ==> st.live[s].core.phase.Terminal?
    requires x in st.live
    ensures Answers(Inside(st, t, s, core, next), t, x)
  {
    if x != s {
      NothingGranted(st, t, x, next);
      LiveIn(st, x);
      AnswersFor(st, Inside(st, t, s, core, next), t, x, st.live[x].core);
    } else {
      AnswersFor(st, Inside(st, t, s, core, next), t, x, core);
    }
  }

  lemma AnswersFor(st: State, st': State, t: nat, x: nat, core: Session)
    requires Inv(st) && x in st.live && x in st'.live && t in st'.threads
    requires st'.live[x] == st.live[x].(core := core)
    requires st'.sessions == st.sessions && st'.entries == st.entries
    requires SessionInv(core) && Granted(core, t, st'.threads[t], x)
    requires core.phase.Terminal? ==> st.live[x].core.phase.Terminal?
    ensures Answers(st', t, x)
  {
    LiveIn(st, x);
  }

  lemma InsideDrops(st: State, t: nat, s: nat, core: Session, next: Thread, x: nat)
    requires Inv(st) && s in st.live && StepOf(st.live[s].core, core, t)
    requires KeepsDebts(st, t, s, core, next)
    requires x in st.live
    ensures NotDropped(st, Inside(st, t, s, core, next), t, x)
  {
    LiveIn(st, x);
  }

  lemma InsideEntries(st: State, t: nat, s: nat, core: Session, next: Thread)
    requires Inv(st) && s in st.live && KeepsCreate(st, t, next)
    requires EntryOf(next).Some? ==> EntryOf(next).value in st.entries &&
                                     CreateOk(Inside(st, t, s, core, next), EntryOf(next).value, next)
    ensures var st' := Inside(st, t, s, core, next);
            forall e :: e in st'.entries && st'.entries[e].owner == t ==> EntryOk(st', e)
  {
    forall e | e in st.entries && st.entries[e].owner == t
      ensures EntryOk(Inside(st, t, s, core, next), e)
    {
      EntryIn(st, e);
    }
  }

  /** A step inside one session keeps the invariant if it keeps the session's own and the thread's promises. */
  lemma InsideKeeps(st: State, t: nat, s: nat, core: Session, next: Thread)
    requires Inv(st) && s in st.live && SessionInv(core) && StepOf(st.live[s].core, core, t)
    requires OnlyStake(st, t, s) && KeepsDebts(st, t, s, core, next) && KeepsCreate(st, t, next)
    requires Granted(core, t, next, s)
    requires core.phase.Terminal? ==> st.live[s].core.phase.Terminal?
    requires ThreadOk(Inside(st, t, s, core, next), t)
    requires EntryOf(next).Some? ==> EntryOf(next).value in st.entries &&
                                     CreateOk(Inside(st, t, s, core, next), EntryOf(next).value, next)
    ensures Steps(st, Inside(st, t, s, core, next), t)
  {
    var st' := Inside(st, t, s, core, next);
    InsideFrame(st, t, s, core, next);
    forall x | x in st'.live
      ensures Answers(st', t, x)
    {
      InsideAnswers(st, t, s, core, next, x);
    }
    forall x | x in st.live
      ensures NotDropped(st, st', t, x)
    {
      InsideDrops(st, t, s, core, next, x);
    }
    InsideEntries(st, t, s, core, next);
    StepKeepsInv(st, st', t);
  }

  /** A thread working on session s that is no Create, owes nothing else, and holds nothing else. */
  predicate Plain(th: Thread, s: nat) {
    match th
    case Marking(x) => x == s
    case TrackStart(x) => x == s
    case TrackLocked(x) => x == s
    case Recording(x) => x == s
    case PeerStart(x, _) => x == s
    case PeerLocked(x, _) => x == s
    case PeerAfter(x, _) => x == s
    case PrimeStart(x) => x == s
    case PrimeWaiting(x) => x == s
    case PrimeInside(x) => x == s
    case PrimeLocked(x) => x == s
    case PrimeStarting(x) => x == s
    case PrimeLeaving(x) => x == s
    case PrimeTop(x) => x == s
    case PrimeSelect(x) => x == s
    case PrimeTicked(x) => x == s
    case PrimeWriting(x) => x == s
    case PeerStopping(x) => x == s
    case GraceFired(x, _) => x == s
    case Expiring(_, x) => x == s
    case CallClose(x, next) => x == s && next == Ended
    case Ended => true
    case _ => false
  }

  lemma PlainStep(st: State, t: nat, s: nat, core: Session, next: Thread)
    requires Plain(next, s) && (t in st.threads ==> Plain(st.threads[t], s) && !st.threads[t].CallClose?)
    ensures OnlyStake(st, t, s) && KeepsDebts(st, t, s, core, next) && KeepsCreate(st, t, next)
    ensures EntryOf(next) == None
  {
  }

  lemma PlainKeeps(st: State, t: nat, s: nat, core: Session, next: Thread)
    requires s in st.live && ThreadOk(Inside(st, t, s, core, next), t)
    requires Inv(st) && SessionInv(core) && StepOf(st.live[s].core, core, t)
    requires Plain(next, s) && (t in st.threads ==> Plain(st.threads[t], s) && !st.threads[t].CallClose?)
    requires Granted(core, t, next, s)
    requires core.phase == st.live[s].core.phase
    ensures Steps(st, Inside(st, t, s, core, next), t)
  {
    PlainStep(st, t, s, core, next);
    InsideKeeps(st, t, s, core, next);
  }

  /** The thread holds nothing of the session: no lock, no once body. */
  predicate FreeOf(core: Session, t: nat) {
    && (core.mu.Held? ==> core.mu.holder != t)
    && core.primeOnce != Running(t) && core.closeOnce != Running(t)
  }

  /** The thread is done with the session, or goes on to close it. */
  lemma PlainEnds(st: State, t: nat, s: nat, core: Session, next: Thread)
    requires s in st.live && next in {Ended, CallClose(s, Ended)}
    requires Inv(st) && SessionInv(core) && StepOf(st.live[s].core, core, t)
    requires t in st.threads ==> Plain(st.threads[t], s) && !st.threads[t].CallClose?
    requires FreeOf(core, t) && core.phase == st.live[s].core.phase
    ensures Steps(st, Inside(st, t, s, core, next), t)
  {
    PlainKeeps(st, t, s, core, next);
  }

  /** The thread goes on without holding anything. */
  lemma PlainFree(st: State, t: nat, s: nat, core: Session, next: Thread)
    requires s in st.live && ThreadOk(Inside(st, t, s, core, next), t)
    requires Inv(st) && SessionInv(core) && StepOf(st.live[s].core, core, t)
    requires Plain(next, s) && (t in st.threads ==> Plain(st.threads[t], s) && !st.threads[t].CallClose?)
    requires FreeOf(core, t) && core.phase == st.live[s].core.phase
    ensures Steps(st, Inside(st, t, s, core, next), t)
  {
    PlainKeeps(st, t, s, core, next);
  }

  lemma PrimeInsideFacts(st: State, t: nat, s: nat)
    requires Inv(st) && s in st.live && t in st.threads && st.threads[t] == PrimeInside(s)
    ensures SessionInv(st.live[s].core) && st.live[s].core.primeOnce == Running(t) && !st.live[s].core.prime.stored
    ensures st.live[s].core.closeOnce != Running(t)
  {
    LiveIn(st, s);
    ThreadIn(st, t);
  }

  /** A thread outside the session's locks and once bodies is free of it. */
  lemma OutsiderFree(st: State, t: nat, s: nat)
    requires Inv(st) && s in st.live && t in st.threads && !HasStake(st.threads[t], s)
    ensures SessionInv(st.live[s].core) && FreeOf(st.live[s].core, t)
  {
    LiveIn(st, s);
  }

  lemma RunnerFacts(st: State, t: nat, s: nat)
    requires Inv(st) && s in st.live && t in st.threads && st.threads[t] == PrimeWriting(s)
    ensures SessionInv(st.live[s].core) && FreeOf(st.live[s].core, t) && MayWrite(st.live[s].core.prime, t)
  {
    OutsiderFree(st, t, s);
    ThreadIn(st, t);
  }

  /** A step of such a thread that leaves the session alone. */
  lemma PlainGoto(st: State, t: nat, s: nat, next: Thread)
    requires Inv(st) && s in st.live && t in st.threads
    requires Plain(next, s) && Plain(st.threads[t], s) && !HasStake(st.threads[t], s)
    requires ThreadOk(Goto(st, t, next), t)
    ensures Steps(st, Goto(st, t, next), t)
  {
    SameInside(st, t, s, next);
    LiveIn(st, s);
    NothingGranted(st, t, s, next);
    StepOfItself(st.live[s].core, t);
    PlainKeeps(st, t, s, st.live[s].core, next);
  }

  lemma SameInside(st: State, t: nat, s: nat, next: Thread)
    requires s in st.live
    ensures Inside(st, t, s, st.live[s].core, next) == Goto(st, t, next)
  {
    assert st.live[s := st.live[s].(core := st.live[s].core)] == st.live;
  }

  lemma StepOfItself(core: Session, t: nat)
    ensures StepOf(core, core, t)
  {
  }

  lemma CoreOf(st: State, s: nat, t: nat)
    requires Inv(st) && s in st.live && t in st.threads
    ensures SessionInv(st.live[s].core)
    ensures ThreadOk(st, t) && HoldersOk(st, s)
  {
    LiveIn(st, s);
    ThreadIn(st, t);
  }

  lemma ArmingTtlStep(st: State, t: nat, s: nat, e: nat)
    requires Inv(st) && t in st.threads && s in st.live
    requires st.threads[t] == ArmingTtl(e, s)
    ensures Steps(st, Inside(st, t, s, ArmExpiry(st.live[s].core), SettingTtl(e, s)), t)
  {
    var core := st.live[s].core;
    CoreOf(st, s, t);
    EntryIn(st, e);
    ArmExpiryKeeps(core, t);
    InsideKeeps(st, t, s, ArmExpiry(st.live[s].core), SettingTtl(e, s));
  }

  lemma SettingTtlStep(st: State, t: nat, s: nat, e: nat)
    requires Inv(st) && t in st.threads && s in st.live
    requires st.threads[t] == SettingTtl(e, s)
    requires st.live[s].core.mu.Free?
    ensures Steps(st, Inside(st, t, s, LockExpiry(st.live[s].core, t),
                         if st.live[s].core.cancelled then Created(e, s) else StoringTtl(e, s)), t)
  {
    var core := st.live[s].core;
    CoreOf(st, s, t);
    EntryIn(st, e);
    LockExpiryKeeps(core, t);
    InsideKeeps(st, t, s, LockExpiry(st.live[s].core, t),
               if st.live[s].core.cancelled then Created(e, s) else StoringTtl(e, s));
  }

  lemma StoringTtlStep(st: State, t: nat, s: nat, e: nat)
    requires Inv(st) && t in st.threads && s in st.live
    requires st.threads[t] == StoringTtl(e, s)
    ensures Steps(st, Inside(st, t, s, FinishExpiry(st.live[s].core), Created(e, s)), t)
  {
    var core := st.live[s].core;
    CoreOf(st, s, t);
    EntryIn(st, e);
    FinishExpiryKeeps(core, t);
    InsideKeeps(st, t, s, FinishExpiry(st.live[s].core), Created(e, s));
  }

  lemma MarkingStep(st: State, t: nat, s: nat)
    requires Inv(st) && t in st.threads && s in st.live
    requires st.threads[t] == Marking(s)
    requires st.live[s].core.mu.Free?
    ensures Steps(st, Inside(st, t, s, MarkConnected(st.live[s].core), Ended), t)
  {
    var core := st.live[s].core;
    OutsiderFree(st, t, s);
    MarkConnectedKeeps(core, t);
    PlainEnds(st, t, s, MarkConnected(st.live[s].core), Ended);
  }

  lemma TrackTakesMuStep(st: State, t: nat, s: nat)
    requires Inv(st) && t in st.threads && s in st.live
    requires st.threads[t] == TrackStart(s) && st.live[s].core.mu.Free?
    requires !st.live[s].core.audioClaimed && !st.live[s].core.cancelled
    ensures Steps(st, Inside(st, t, s, LockTrack(st.live[s].core, t), TrackLocked(s)), t)
  {
    OutsiderFree(st, t, s);
    LockTrackKeeps(st.live[s].core, t);
    PlainKeeps(st, t, s, LockTrack(st.live[s].core, t), TrackLocked(s));
  }

  lemma TrackStartStep(st: State, t: nat, s: nat)
    requires Inv(st) && t in st.threads && s in st.live
    requires st.threads[t] == TrackStart(s)
    requires st.live[s].core.mu.Free?
    ensures Steps(st, Inside(st, t, s, LockTrack(st.live[s].core, t),
                         if st.live[s].core.audioClaimed || st.live[s].core.cancelled then Ended
                         else TrackLocked(s)), t)
  {
    if st.live[s].core.audioClaimed || st.live[s].core.cancelled {
      SameInside(st, t, s, Ended);
      PlainGoto(st, t, s, Ended);
    } else {
      TrackTakesMuStep(st, t, s);
    }
  }

  lemma RecorderMadeStep(st: State, t: nat, s: nat)
    requires Inv(st) && t in st.threads && s in st.live
    requires st.threads[t] == TrackLocked(s)
    ensures Steps(st, Inside(st, t, s, FinishTrack(st.live[s].core, true), Recording(s)), t)
  {
    CoreOf(st, s, t);
    FinishTrackKeeps(st.live[s].core, t, true);
    PlainFree(st, t, s, FinishTrack(st.live[s].core, true), Recording(s));
  }

  lemma RecorderFailedStep(st: State, t: nat, s: nat)
    requires Inv(st) && t in st.threads && s in st.live
    requires st.threads[t] == TrackLocked(s)
    ensures Steps(st, Inside(st, t, s, FinishTrack(st.live[s].core, false), CallClose(s, Ended)), t)
  {
    CoreOf(st, s, t);
    FinishTrackKeeps(st.live[s].core, t, false);
    PlainEnds(st, t, s, FinishTrack(st.live[s].core, false), CallClose(s, Ended));
  }

  lemma TrackLockedStep(st: State, t: nat, s: nat, ok: bool)
    requires Inv(st) && t in st.threads && s in st.live
    requires st.threads[t] == TrackLocked(s)
    ensures Steps(st, Inside(st, t, s, FinishTrack(st.live[s].core, ok),
                         if ok then Recording(s) else CallClose(s, Ended)), t)
  {
    if ok {
      RecorderMadeStep(st, t, s);
    } else {
      RecorderFailedStep(st, t, s);
    }
  }

  lemma PacketWrittenStep(st: State, t: nat, s: nat)
    requires Inv(st) && t in st.threads && s in st.live
    requires st.threads[t] == Recording(s)
    ensures Steps(st, Inside(st, t, s, WritePacket(st.live[s].core), Recording(s)), t)
  {
    CoreOf(st, s, t);
    WritePacketKeeps(st.live[s].core, t);
    PlainFree(st, t, s, WritePacket(st.live[s].core), Recording(s));
  }

  lemma PacketFailedStep(st: State, t: nat, s: nat)
    requires Inv(st) && t in st.threads && s in st.live
    requires st.threads[t] == Recording(s)
    ensures Steps(st, Inside(st, t, s, WritePacket(st.live[s].core), CallClose(s, Ended)), t)
  {
    CoreOf(st, s, t);
    WritePacketKeeps(st.live[s].core, t);
    PlainEnds(st, t, s, WritePacket(st.live[s].core), CallClose(s, Ended));
  }

  lemma RecordingStep(st: State, t: nat, s: nat, ok: bool)
    requires Inv(st) && t in st.threads && s in st.live
    requires st.threads[t] == Recording(s)
    ensures Steps(st, Inside(st, t, s, WritePacket(st.live[s].core),
                         if ok then Recording(s) else CallClose(s, Ended)), t)
  {
    if ok {
      PacketWrittenStep(st, t, s);
    } else {
      PacketFailedStep(st, t, s);
    }
  }

  lemma PeerTakesMuStep(st: State, t: nat, s: nat)
    requires Inv(st) && t in st.threads && s in st.live
    requires st.threads[t] == PeerStart(s, Disconnected) && st.live[s].core.mu.Free? && !st.live[s].core.cancelled
    ensures Steps(st, Inside(st, t, s, LockPeer(st.live[s].core, t, Disconnected),
                         PeerLocked(s, st.live[s].core.generation + 1)), t)
  {
    OutsiderFree(st, t, s);
    LockPeerKeeps(st.live[s].core, t, Disconnected);
    PlainKeeps(st, t, s, LockPeer(st.live[s].core, t, Disconnected), PeerLocked(s, st.live[s].core.generation + 1));
  }

  lemma NotedFree(core: Session, t: nat, state: PeerState)
    requires FreeOf(core, t) && (state != Disconnected || core.cancelled)
    ensures FreeOf(LockPeer(core, t, state), t) && LockPeer(core, t, state).phase == core.phase
  {
  }

  lemma PeerNotedStep(st: State, t: nat, s: nat, state: PeerState)
    requires Inv(st) && t in st.threads && s in st.live
    requires st.threads[t] == PeerStart(s, state) && st.live[s].core.mu.Free?
    requires state != Disconnected || st.live[s].core.cancelled
    ensures Steps(st, Inside(st, t, s, LockPeer(st.live[s].core, t, state), PeerAfter(s, state)), t)
  {
    OutsiderFree(st, t, s);
    LockPeerKeeps(st.live[s].core, t, state);
    NotedFree(st.live[s].core, t, state);
    PlainFree(st, t, s, LockPeer(st.live[s].core, t, state), PeerAfter(s, state));
  }

  lemma PeerStartStep(st: State, t: nat, s: nat, state: PeerState)
    requires Inv(st) && t in st.threads && s in st.live
    requires st.threads[t] == PeerStart(s, state)
    requires st.live[s].core.mu.Free?
    ensures Steps(st, Inside(st, t, s, LockPeer(st.live[s].core, t, state),
                         if state == Disconnected && !st.live[s].core.cancelled
                         then PeerLocked(s, st.live[s].core.generation + 1)
                         else PeerAfter(s, state)), t)
  {
    if state == Disconnected && !st.live[s].core.cancelled {
      PeerTakesMuStep(st, t, s);
    } else {
      PeerNotedStep(st, t, s, state);
    }
  }

  lemma PeerLockedStep(st: State, t: nat, s: nat, g: nat)
    requires Inv(st) && t in st.threads && s in st.live
    requires st.threads[t] == PeerLocked(s, g)
    ensures Steps(st, Inside(st, t, s, FinishPeer(st.live[s].core, g), Ended), t)
  {
    var core := st.live[s].core;
    CoreOf(st, s, t);
    FinishPeerKeeps(core, t, g);
    PlainEnds(st, t, s, FinishPeer(st.live[s].core, g), Ended);
  }

  lemma PrimeWaitingStep(st: State, t: nat, s: nat)
    requires Inv(st) && t in st.threads && s in st.live
    requires st.threads[t] == PrimeWaiting(s)
    requires st.live[s].core.primeOnce.Fresh?
    ensures Steps(st, Inside(st, t, s, EnterPrime(st.live[s].core, t), PrimeInside(s)), t)
  {
    var core := st.live[s].core;
    CoreOf(st, s, t);
    EnterPrimeKeeps(core, t);
    PlainKeeps(st, t, s, EnterPrime(st.live[s].core, t), PrimeInside(s));
  }

  lemma PrimeGivesUpStep(st: State, t: nat, s: nat)
    requires Inv(st) && t in st.threads && s in st.live
    requires st.threads[t] == PrimeInside(s) && st.live[s].core.mu.Free? && st.live[s].core.cancelled
    ensures Steps(st, Inside(st, t, s, LockPrime(st.live[s].core, t), Ended), t)
  {
    PrimeInsideFacts(st, t, s);
    LockPrimeKeeps(st.live[s].core, t);
    PlainEnds(st, t, s, LockPrime(st.live[s].core, t), Ended);
  }

  lemma PrimeTakesMuStep(st: State, t: nat, s: nat)
    requires Inv(st) && t in st.threads && s in st.live
    requires st.threads[t] == PrimeInside(s) && st.live[s].core.mu.Free? && !st.live[s].core.cancelled
    ensures Steps(st, Inside(st, t, s, LockPrime(st.live[s].core, t), PrimeLocked(s)), t)
  {
    PrimeInsideFacts(st, t, s);
    LockPrimeKeeps(st.live[s].core, t);
    PlainKeeps(st, t, s, LockPrime(st.live[s].core, t), PrimeLocked(s));
  }

  lemma PrimeInsideStep(st: State, t: nat, s: nat)
    requires Inv(st) && t in st.threads && s in st.live
    requires st.threads[t] == PrimeInside(s)
    requires st.live[s].core.mu.Free?
    ensures Steps(st, Inside(st, t, s, LockPrime(st.live[s].core, t),
                         if st.live[s].core.cancelled then Ended else PrimeLocked(s)), t)
  {
    if st.live[s].core.cancelled {
      PrimeGivesUpStep(st, t, s);
    } else {
      PrimeTakesMuStep(st, t, s);
    }
  }

  lemma PrimeLockedStep(st: State, t: nat, s: nat)
    requires Inv(st) && t in st.threads && s in st.live
    requires st.threads[t] == PrimeLocked(s)
    ensures Steps(st, Inside(st, t, s, StorePrimeCancel(st.live[s].core), PrimeStarting(s)), t)
  {
    CoreOf(st, s, t);
    StorePrimeCancelKeeps(st.live[s].core, t);
    PlainKeeps(st, t, s, StorePrimeCancel(st.live[s].core), PrimeStarting(s));
  }

  lemma PrimeStartingStep(st: State, t: nat, s: nat)
    requires Inv(st) && t in st.threads && s in st.live
    requires st.threads[t] == PrimeStarting(s)
    ensures Steps(st, Inside(st, t, s, StartRunner(st.live[s].core), PrimeLeaving(s)), t)
  {
    CoreOf(st, s, t);
    StartRunnerKeeps(st.live[s].core, t);
    PlainKeeps(st, t, s, StartRunner(st.live[s].core), PrimeLeaving(s));
  }

  lemma PrimeLeavingStep(st: State, t: nat, s: nat)
    requires Inv(st) && t in st.threads && s in st.live
    requires st.threads[t] == PrimeLeaving(s)
    ensures Steps(st, Inside(st, t, s, LeavePrime(st.live[s].core), Ended), t)
  {
    CoreOf(st, s, t);
    LeavePrimeKeeps(st.live[s].core, t);
    PlainEnds(st, t, s, LeavePrime(st.live[s].core), Ended);
  }

  lemma PeerStoppingStep(st: State, t: nat, s: nat)
    requires Inv(st) && t in st.threads && s in st.live
    requires st.threads[t] == PeerStopping(s)
    ensures Steps(st, Inside(st, t, s, CutPrime(st.live[s].core), CallClose(s, Ended)), t)
  {
    CoreOf(st, s, t);
    CutPrimeKeeps(st.live[s].core, t);
    PlainEnds(st, t, s, CutPrime(st.live[s].core), CallClose(s, Ended));
  }

  lemma PrimeWroteStep(st: State, t: nat, s: nat)
    requires Inv(st) && t in st.threads && s in st.live
    requires st.threads[t] == PrimeWriting(s)
    ensures Steps(st, Inside(st, t, s, RunnerWrites(st.live[s].core, true), PrimeTop(s)), t)
  {
    RunnerFacts(st, t, s);
    RunnerWritesKeeps(st.live[s].core, t, true);
    PlainFree(st, t, s, RunnerWrites(st.live[s].core, true), PrimeTop(s));
  }

  lemma PrimeFailedStep(st: State, t: nat, s: nat)
    requires Inv(st) && t in st.threads && s in st.live
    requires st.threads[t] == PrimeWriting(s)
    ensures Steps(st, Inside(st, t, s, RunnerWrites(st.live[s].core, false), Ended), t)
  {
    RunnerFacts(st, t, s);
    RunnerWritesKeeps(st.live[s].core, t, false);
    PlainEnds(st, t, s, RunnerWrites(st.live[s].core, false), Ended);
  }

  lemma GraceClosesStep(st: State, t: nat, s: nat, g: nat)
    requires Inv(st) && t in st.threads && s in st.live
    requires st.threads[t] == GraceFired(s, g) && st.live[s].core.mu.Free?
    requires StillDisconnected(st.live[s].core, g)
    ensures Steps(st, Inside(st, t, s, CheckGrace(st.live[s].core, g), CallClose(s, Ended)), t)
  {
    CoreOf(st, s, t);
    CheckGraceKeeps(st.live[s].core, t, g);
    PlainEnds(st, t, s, CheckGrace(st.live[s].core, g), CallClose(s, Ended));
  }

  lemma GraceFiredStep(st: State, t: nat, s: nat, g: nat)
    requires Inv(st) && t in st.threads && s in st.live
    requires st.threads[t] == GraceFired(s, g)
    requires st.live[s].core.mu.Free?
    ensures Steps(st, Inside(st, t, s, CheckGrace(st.live[s].core, g),
                         if StillDisconnected(st.live[s].core, g) then CallClose(s, Ended) else Ended), t)
  {
    if StillDisconnected(st.live[s].core, g) {
      GraceClosesStep(st, t, s, g);
    } else {
      SameInside(st, t, s, Ended);
      PlainGoto(st, t, s, Ended);
    }
  }
}
