/** The inductive invariant of the lifecycle protocol. */
module ProtocolInvariant {
  import opened GoText
  import opened PrimeSteps
  import opened SessionSteps
  import opened Protocol

  // ---- what a thread stands for ----

  /** The entry a Create thread allocated. */
  function EntryOf(th: Thread): Option<nat> {
    match th
    case Making(e) => Some(e)
    case SettingUp(e, _) => Some(e)
    case Cleanup(e, _) => Some(e)
    case Publishing(e, _) => Some(e)
    case ArmingTtl(e, _) => Some(e)
    case SettingTtl(e, _) => Some(e)
    case StoringTtl(e, _) => Some(e)
    case Created(e, _) => Some(e)
    case CreateFailed(e, _) => Some(e)
    case CallClose(_, next) => EntryOf(next)
    case _ => None
  }

  /** The session a Create thread got from `NewSession`. */
  function SessionOf(th: Thread): Option<nat> {
    match th
    case SettingUp(_, s) => Some(s)
    case Cleanup(_, closed) => closed
    case Publishing(_, s) => Some(s)
    case ArmingTtl(_, s) => Some(s)
    case SettingTtl(_, s) => Some(s)
    case StoringTtl(_, s) => Some(s)
    case Created(_, s) => Some(s)
    case CreateFailed(_, closed) => closed
    case CallClose(_, next) => SessionOf(next)
    case _ => None
  }

  /** The Create still works on the session, outside any lock. */
  predicate Pending(th: Thread, s: nat) {
    (th.SettingUp? || th.Publishing?) && th.session == s
  }

  /** The thread is in, or will come to, a call of the session's `Close`. */
  predicate Owes(th: Thread, s: nat) {
    match th
    case CallClose(x, next) => x == s || Owes(next, s)
    case CloseLoop(todo, _) => s in todo
    case _ => false
  }

  predicate Holds(th: Thread, s: nat, w: Work) {
    match w
    case CreateRecorder => th == TrackLocked(s)
    case ArmGrace(g) => th == PeerLocked(s, g)
    case StoreExpiry => th.StoringTtl? && th.session == s
    case StorePrime => th == PrimeLocked(s)
  }

  predicate InPrime(th: Thread, s: nat) {
    th == PrimeInside(s) || th == PrimeLocked(s) || th == PrimeStarting(s) || th == PrimeLeaving(s)
  }

  predicate InClose(th: Thread, s: nat) {
    th.CallClose? && th.session == s
  }

  // ---- the invariant ----

  predicate MapOk(st: State) {
    forall id :: id in st.sessions ==> st.sessions[id] in st.entries && st.entries[st.sessions[id]].id == id
  }

  predicate Owns(st: State, s: nat, e: nat) {
    s in st.live && st.live[s].entry == e
  }

  predicate Done(st: State, s: nat) {
    s in st.live && st.live[s].core.closeOnce.Finished?
  }

  predicate Unpublished(st: State, e: nat)
    requires e in st.entries
  {
    st.entries[e].session.None?
  }

  /** An entry agrees with the progress of its Create. */
  predicate CreateOk(st: State, e: nat, th: Thread)
    requires e in st.entries
  {
    match th
    case Making(_) => Unpublished(st, e)
    case SettingUp(_, s) => Unpublished(st, e) && Owns(st, s, e)
    case Publishing(_, s) => Unpublished(st, e) && Owns(st, s, e)
    case Cleanup(_, closed) =>
      Unpublished(st, e) && (closed.Some? ==> Owns(st, closed.value, e) && Done(st, closed.value))
    case ArmingTtl(_, s) => st.entries[e].session == Some(s) && Owns(st, s, e)
    case SettingTtl(_, s) => st.entries[e].session == Some(s) && Owns(st, s, e)
    case StoringTtl(_, s) => st.entries[e].session == Some(s) && Owns(st, s, e)
    case Created(_, s) => st.entries[e].session == Some(s) && Owns(st, s, e)
    case CreateFailed(_, closed) =>
      Unpublished(st, e) && !Bound(st, e) && (closed.Some? ==> Owns(st, closed.value, e) && Done(st, closed.value))
    case CallClose(s, Cleanup(_, closed)) => Unpublished(st, e) && closed == Some(s) && Owns(st, s, e)
    case CallClose(s, CreateFailed(_, closed)) =>
      Unpublished(st, e) && !Bound(st, e) && closed == Some(s) && Owns(st, s, e)
    case _ => false
  }

  predicate EntryOk(st: State, e: nat)
    requires e in st.entries
  {
    var owner := st.entries[e].owner;
    && owner in st.threads
    && EntryOf(st.threads[owner]) == Some(e)
    && CreateOk(st, e, st.threads[owner])
  }

  /** The session is published in the map. */
  predicate InMap(st: State, s: nat)
    requires s in st.live
  {
    var e := st.live[s].entry;
    Bound(st, e) && st.entries[e].session == Some(s)
  }

  predicate OwnerPending(st: State, s: nat)
    requires s in st.live
  {
    var e := st.live[s].entry;
    && e in st.entries
    && st.entries[e].owner in st.threads
    && Pending(st.threads[st.entries[e].owner], s)
  }

  predicate SomeoneOwes(st: State, s: nat) {
    exists t :: t in st.threads && Owes(st.threads[t], s)
  }

  /** Nobody can have forgotten the session. */
  predicate NotLeaked(st: State, s: nat)
    requires s in st.live
  {
    || st.live[s].core.closeOnce != Fresh
    || OwnerPending(st, s)
    || InMap(st, s)
    || SomeoneOwes(st, s)
  }

  /** Locks and running `sync.Once` bodies belong to threads that are inside them. */
  predicate HoldersOk(st: State, s: nat)
    requires s in st.live
  {
    var core := st.live[s].core;
    && (core.mu.Held? ==> core.mu.holder in st.threads && Holds(st.threads[core.mu.holder], s, core.mu.work))
    && (core.primeOnce.Running? ==>
          core.primeOnce.runner in st.threads && InPrime(st.threads[core.primeOnce.runner], s))
    && (core.closeOnce.Running? ==>
          core.closeOnce.runner in st.threads && InClose(st.threads[core.closeOnce.runner], s))
  }

  predicate OwnerKnows(st: State, s: nat)
    requires s in st.live
  {
    var e := st.live[s].entry;
    && e in st.entries
    && st.entries[e].owner in st.threads
    && SessionOf(st.threads[st.entries[e].owner]) == Some(s)
  }

  predicate LiveOk(st: State, s: nat)
    requires s in st.live
  {
    && SessionInv(st.live[s].core)
    && OwnerKnows(st, s)
    && HoldersOk(st, s)
    && (st.live[s].core.phase.Terminal? ==> !Bound(st, st.live[s].entry))
    && NotLeaked(st, s)
  }

  predicate TargetsOk(st: State, todo: seq<nat>, targets: set<nat>, closing: Option<nat>) {
    && (forall i :: 0 <= i < |todo| ==> todo[i] in st.live)
    && (forall s :: s in targets ==> s in todo || closing == Some(s) || Done(st, s))
  }

  predicate NextOk(st: State, s: nat, next: Thread) {
    match next
    case Ended => true
    case CloseLoop(todo, targets) => TargetsOk(st, todo, targets, Some(s))
    case Cleanup(_, closed) => closed == Some(s)
    case CreateFailed(_, closed) => closed == Some(s)
    case _ => false
  }

  predicate RunsPrime(p: Prime, t: nat) {
    p.runner.RunBy? && p.runner.thread == t
  }

  /** The runner was in time at the last loop head: whatever comes, its next write is at most the first late one. */
  predicate MayWrite(p: Prime, t: nat) {
    p.runner == RunBy(t, false) && LastOk(p) && LastInTime(p)
  }

  predicate ThreadOk(st: State, t: nat)
    requires t in st.threads
  {
    var th := st.threads[t];
    && (EntryOf(th).Some? ==> EntryOf(th).value in st.entries && st.entries[EntryOf(th).value].owner == t)
    && match th
       case Created(_, s) => s in st.live && (st.ttl ==> Covered(st.live[s].core))
       case SettingTtl(_, s) => s in st.live && TimerKnown(st.live[s].core)
       case StoringTtl(_, s) => s in st.live && HeldFor(st.live[s].core, t, StoreExpiry)
       case Expiring(_, s) => s in st.live
       case Marking(s) => s in st.live
       case CloseLoop(todo, targets) => TargetsOk(st, todo, targets, None)
       case CallClose(s, next) => s in st.live && NextOk(st, s, next)
       case TrackStart(s) => s in st.live
       case TrackLocked(s) => s in st.live && HeldFor(st.live[s].core, t, CreateRecorder)
       case Recording(s) => s in st.live && st.live[s].core.created == 1
       case PeerStart(s, _) => s in st.live
       case PeerLocked(s, g) => s in st.live && HeldFor(st.live[s].core, t, ArmGrace(g))
       case PeerAfter(s, _) => s in st.live
       case PrimeStart(s) => s in st.live
       case PrimeWaiting(s) => s in st.live
       case PeerStopping(s) => s in st.live && st.live[s].core.prime.stored
       case PrimeInside(s) =>
         s in st.live && st.live[s].core.primeOnce == Running(t) && !st.live[s].core.prime.stored
       case PrimeLocked(s) =>
         s in st.live && st.live[s].core.primeOnce == Running(t) && HeldFor(st.live[s].core, t, StorePrime)
       case PrimeStarting(s) =>
         && s in st.live && st.live[s].core.primeOnce == Running(t)
         && st.live[s].core.prime.stored && st.live[s].core.prime.started == 0
       case PrimeLeaving(s) =>
         s in st.live && st.live[s].core.primeOnce == Running(t) && st.live[s].core.prime.started == 1
       case PrimeTop(s) => s in st.live && RunsPrime(st.live[s].core.prime, t) && LastOk(st.live[s].core.prime)
       case PrimeSelect(s) => s in st.live && MayWrite(st.live[s].core.prime, t)
       case PrimeTicked(s) => s in st.live && MayWrite(st.live[s].core.prime, t)
       case PrimeWriting(s) => s in st.live && MayWrite(st.live[s].core.prime, t)
       case GraceFired(s, g) => s in st.live && g in st.live[s].core.graceFired
       case _ => true
  }

  /** The parts of a state the invariant speaks about. */
  datatype Part = TheMap | AnEntry(e: nat) | ASession(s: nat) | AThread(t: nat)

  predicate PartOk(st: State, p: Part) {
    match p
    case TheMap => MapOk(st)
    case AnEntry(e) => e in st.entries ==> EntryOk(st, e)
    case ASession(s) => s in st.live ==> LiveOk(st, s)
    case AThread(t) => t in st.threads ==> ThreadOk(st, t)
  }

  ghost predicate Inv(st: State) {
    forall p: Part :: PartOk(st, p)
  }

  lemma MapOf(st: State)
    requires Inv(st)
    ensures MapOk(st)
  {
    assert PartOk(st, TheMap);
  }

  lemma EntryIn(st: State, e: nat)
    requires Inv(st) && e in st.entries
    ensures EntryOk(st, e)
  {
    assert PartOk(st, AnEntry(e));
  }

  lemma LiveIn(st: State, s: nat)
    requires Inv(st) && s in st.live
    ensures LiveOk(st, s)
  {
    assert PartOk(st, ASession(s));
  }

  lemma ThreadIn(st: State, t: nat)
    requires Inv(st) && t in st.threads
    ensures ThreadOk(st, t)
  {
    assert PartOk(st, AThread(t));
  }

  // ---- a step of thread t, seen from everybody else ----

  predicate EntriesGrow(st: State, st': State, t: nat) {
    forall e :: e in st.entries ==>
      && e in st'.entries
      && st'.entries[e].id == st.entries[e].id
      && st'.entries[e].owner == st.entries[e].owner
      && (st.entries[e].owner != t ==> st'.entries[e].session == st.entries[e].session)
      && (Bound(st', e) ==> Bound(st, e))
  }

  predicate LiveSteps(st: State, st': State, t: nat) {
    forall s :: s in st.live ==>
      && s in st'.live
      && st'.live[s].entry == st.live[s].entry
      && StepOf(st.live[s].core, st'.live[s].core, t)
  }

  predicate OnlyThread(st: State, st': State, t: nat) {
    && t in st'.threads
    && st'.threads == st.threads[t := st'.threads[t]]
    && st'.ttl == st.ttl
  }

  predicate Evolves(st: State, st': State, t: nat) {
    EntriesGrow(st, st', t) && LiveSteps(st, st', t) && OnlyThread(st, st', t)
  }

  /** What thread u relies on, a step of another thread leaves as it is. */
  predicate Undisturbed(c: Session, c': Session, u: nat) {
    && (c.mu.Held? && c.mu.holder == u ==> c'.mu == c.mu)
    && (c.primeOnce == Running(u) ==>
          && c'.primeOnce == Running(u)
          && c'.prime.stored == c.prime.stored && c'.prime.started == c.prime.started)
    && (RunsPrime(c.prime, u) ==> c'.prime.runner == c.prime.runner && c'.prime.rounds == c.prime.rounds)
    && (c.prime.stored ==> c'.prime.stored)
    && (c.created == 1 ==> c'.created == 1)
    && (Covered(c) ==> Covered(c'))
    && (TimerKnown(c) ==> TimerKnown(c'))
    && (c.closeOnce.Finished? ==> c'.closeOnce.Finished?)
    && c.graceFired <= c'.graceFired
  }

  lemma StepUndisturbed(c: Session, c': Session, t: nat, u: nat)
    requires StepOf(c, c', t) && u != t && SessionInv(c')
    ensures Undisturbed(c, c', u)
  {
  }

  ghost predicate AllUndisturbed(st: State, st': State, u: nat) {
    forall s :: s in st.live ==> s in st'.live && Undisturbed(st.live[s].core, st'.live[s].core, u)
  }

  lemma OtherThread(st: State, st': State, t: nat, u: nat)
    requires Evolves(st, st', t)
    requires u in st.threads && u != t && ThreadOk(st, u)
    requires forall s :: s in st'.live ==> SessionInv(st'.live[s].core)
    ensures u in st'.threads && ThreadOk(st', u)
  {
    forall s | s in st.live
      ensures s in st'.live && Undisturbed(st.live[s].core, st'.live[s].core, u)
    {
      StepUndisturbed(st.live[s].core, st'.live[s].core, t, u);
    }
    assert st'.threads[u] == st.threads[u];
    ThreadUndisturbed(st, st', u);
  }

  lemma ThreadUndisturbed(st: State, st': State, u: nat)
    requires u in st.threads && ThreadOk(st, u) && AllUndisturbed(st, st', u)
    requires u in st'.threads && st'.threads[u] == st.threads[u] && st'.ttl == st.ttl
    requires forall e :: e in st.entries ==> e in st'.entries && st'.entries[e].owner == st.entries[e].owner
    ensures ThreadOk(st', u)
  {
  }

  lemma OtherEntry(st: State, st': State, t: nat, e: nat)
    requires Evolves(st, st', t)
    requires e in st.entries && st.entries[e].owner != t && EntryOk(st, e)
    ensures e in st'.entries && EntryOk(st', e)
  {
  }

  /** What thread t holds of the session, it is inside of. */
  predicate Granted(core: Session, t: nat, th: Thread, s: nat) {
    && (core.mu.Held? && core.mu.holder == t ==> Holds(th, s, core.mu.work))
    && (core.primeOnce == Running(t) ==> InPrime(th, s))
    && (core.closeOnce == Running(t) ==> InClose(th, s))
  }

  /** What thread t must answer for about a session after its step. */
  predicate Answers(st': State, t: nat, s: nat)
    requires s in st'.live && t in st'.threads
  {
    && SessionInv(st'.live[s].core)
    && Granted(st'.live[s].core, t, st'.threads[t], s)
    && (st'.live[s].core.phase.Terminal? ==> !Bound(st', st'.live[s].entry))
  }

  /** Thread t did not drop the session: neither its own claim on it nor its binding. */
  predicate NotDropped(st: State, st': State, t: nat, s: nat)
    requires s in st.live && s in st'.live && t in st'.threads
  {
    (t in st.threads && (Pending(st.threads[t], s) || Owes(st.threads[t], s))) || (InMap(st, s) && !InMap(st', s)) ==>
      || st'.live[s].core.closeOnce != Fresh
      || OwnerPending(st', s)
      || InMap(st', s)
      || Owes(st'.threads[t], s)
  }

  lemma StillHeld(st: State, st': State, t: nat, s: nat)
    requires Evolves(st, st', t) && s in st.live
    requires HoldersOk(st, s) && Answers(st', t, s)
    ensures HoldersOk(st', s)
  {
  }

  lemma StillNotLeaked(st: State, st': State, t: nat, s: nat)
    requires Evolves(st, st', t) && s in st.live && OwnerKnows(st, s)
    requires NotLeaked(st, s) && NotDropped(st, st', t, s)
    ensures NotLeaked(st', s)
  {
    if InMap(st, s) {
    } else if SomeoneOwes(st, s) {
      var u :| u in st.threads && Owes(st.threads[u], s);
      if u != t {
        assert u in st'.threads && Owes(st'.threads[u], s);
      } else {
        assert Owes(st'.threads[t], s) ==> SomeoneOwes(st', s);
      }
    } else if OwnerPending(st, s) {
      var owner := st.entries[st.live[s].entry].owner;
      if owner != t {
        assert st'.threads[owner] == st.threads[owner];
      }
    }
  }

  lemma StillKnown(st: State, st': State, t: nat, s: nat)
    requires Evolves(st, st', t) && s in st.live && OwnerKnows(st, s)
    requires t in st.threads ==> SessionOf(st.threads[t]).Some? ==>
              SessionOf(st'.threads[t]) == SessionOf(st.threads[t])
    ensures OwnerKnows(st', s)
  {
  }

  /** The obligations of a step of thread t; everything else follows from the frame. */
  predicate StepOk(st: State, st': State, t: nat) {
    && Evolves(st, st', t)
    && MapOk(st')
    && ThreadOk(st', t)
    && (forall e :: e in st'.entries ==> (e in st.entries || st'.entries[e].owner == t))
    && (forall e :: e in st'.entries && st'.entries[e].owner == t ==> EntryOk(st', e))
    && (t in st.threads ==> SessionOf(st.threads[t]).Some? ==> SessionOf(st'.threads[t]) == SessionOf(st.threads[t]))
    && (forall s :: s in st'.live ==> Answers(st', t, s))
    && (forall s :: s in st.live ==> NotDropped(st, st', t, s))
    && (forall s :: s in st'.live && s !in st.live ==> LiveOk(st', s))
  }

  /** What a step of thread t comes to. */
  ghost predicate Steps(st: State, st': State, t: nat) {
    Inv(st') && Evolves(st, st', t)
  }

  lemma StepKeepsInv(st: State, st': State, t: nat)
    requires Inv(st) && StepOk(st, st', t)
    ensures Steps(st, st', t)
  {
    forall p: Part
      ensures PartOk(st', p)
    {
      match p
      case TheMap =>
      case AnEntry(e) =>
        if e in st'.entries {
          EntryKept(st, st', t, e);
        }
      case ASession(s) =>
        if s in st'.live {
          LiveKept(st, st', t, s);
        }
      case AThread(u) =>
        if u in st'.threads {
          ThreadKept(st, st', t, u);
        }
    }
  }

  lemma EntryKept(st: State, st': State, t: nat, e: nat)
    requires Inv(st) && StepOk(st, st', t) && e in st'.entries
    ensures EntryOk(st', e)
  {
    if e in st.entries && st.entries[e].owner != t {
      EntryIn(st, e);
      OtherEntry(st, st', t, e);
    }
  }

  lemma LiveKept(st: State, st': State, t: nat, s: nat)
    requires Inv(st) && StepOk(st, st', t) && s in st'.live
    ensures LiveOk(st', s)
  {
    if s in st.live {
      LiveIn(st, s);
      assert Answers(st', t, s) && NotDropped(st, st', t, s);
      StillHeld(st, st', t, s);
      StillKnown(st, st', t, s);
      StillNotLeaked(st, st', t, s);
    }
  }

  lemma ThreadKept(st: State, st': State, t: nat, u: nat)
    requires Inv(st) && StepOk(st, st', t) && u in st'.threads
    ensures ThreadOk(st', u)
  {
    if u != t {
      ThreadIn(st, u);
      OtherThread(st, st', t, u);
    }
  }
}
