/**
 * The other methods of a session, uninterrupted: each exists as a run of the protocol that ends in what the method of
 * the session object promises, and touches nothing but the session and the thread.
 */
module ProtocolCalls {
  import opened SessionSteps
  import opened SessionSequences
  import opened Protocol
  import opened ProtocolAlone

  function Chose(ok: bool): Choice {
    Choice(ok, false, 0, [])
  }

  /** The state after a call that leaves the map alone. */
  function Then(st: State, t: nat, s: nat, next: Thread, core: Session): State
    requires s in st.live
  {
    After(st, t, s, next, core, st.sessions)
  }

  predicate At(st: State, t: nat, s: nat, th: Thread) {
    t in st.threads && st.threads[t] == th && s in st.live
  }

  /** One step, and the state it leads to. */
  lemma OneStep(st: State, t: nat, c: Choice, end: State)
    requires RunEnabled(st, t, c) && RunStep(st, t, c) == end
    ensures Reaches(st, [Run(t, c)], end)
  {
    RunFirst(st, Run(t, c), [], end);
    assert [Run(t, c)] + [] == [Run(t, c)];
  }

  /** One step, then a run that ends in the same session and thread. */
  lemma StepThen(st: State, t: nat, c: Choice, s: nat, next: Thread, core: Session, rest: seq<Action>, last: Thread,
      end: Session)
    requires s in st.live && RunEnabled(st, t, c) && RunStep(st, t, c) == Then(st, t, s, next, core)
    requires Reaches(Then(st, t, s, next, core), rest, Then(Then(st, t, s, next, core), t, s, last, end))
    ensures Reaches(st, [Run(t, c)] + rest, Then(st, t, s, last, end))
  {
    AfterTwice(st, t, s, next, last, core, end, st.sessions, st.sessions);
    RunFirst(st, Run(t, c), rest, Then(st, t, s, last, end));
  }

  // ---- startRecorder ----

  function AfterTrack(core: Session, s: nat, ok: bool): Thread {
    if core.audioClaimed || core.cancelled then Thread.Ended
    else if ok then Recording(s)
    else CallClose(s, Thread.Ended)
  }

  lemma TrackLast(st: State, t: nat, s: nat, ok: bool)
    requires At(st, t, s, TrackLocked(s))
    ensures Reaches(st, [Run(t, Chose(ok))],
              Then(st, t, s, if ok then Recording(s) else CallClose(s, Thread.Ended), FinishTrack(st.live[s].core, ok)))
  {
    OneStep(st, t, Chose(ok),
        Then(st, t, s, if ok then Recording(s) else CallClose(s, Thread.Ended), FinishTrack(st.live[s].core, ok)));
  }

  /** `startRecorder` alone. */
  lemma TrackAlone(st: State, t: nat, s: nat, ok: bool) returns (actions: seq<Action>)
    requires At(st, t, s, TrackStart(s)) && Idle(st.live[s].core)
    ensures Reaches(st, actions, Then(st, t, s, AfterTrack(st.live[s].core, s, ok), Tracked(st.live[s].core, ok)))
  {
    var core := st.live[s].core;
    var c := Chose(ok);
    TrackedIsTheSteps(core, t, ok);
    actions := [Run(t, c)];
    if core.audioClaimed || core.cancelled {
      OneStep(st, t, c, Then(st, t, s, Thread.Ended, LockTrack(core, t)));
    } else {
      var locked := LockTrack(core, t);
      TrackLast(Then(st, t, s, TrackLocked(s), locked), t, s, ok);
      StepThen(st, t, c, s, TrackLocked(s), locked, [Run(t, c)], AfterTrack(core, s, ok), FinishTrack(locked, ok));
      actions := [Run(t, c)] + [Run(t, c)];
    }
  }

  // ---- handlePeerConnectionState ----

  function AfterPeer(core: Session, s: nat, state: PeerState): Thread {
    if state == Disconnected && !core.cancelled then Thread.Ended else PeerAfter(s, state)
  }

  lemma PeerLast(st: State, t: nat, s: nat, g: nat)
    requires At(st, t, s, PeerLocked(s, g))
    ensures Reaches(st, [Run(t, ANY)], Then(st, t, s, Thread.Ended, FinishPeer(st.live[s].core, g)))
  {
    OneStep(st, t, ANY, Then(st, t, s, Thread.Ended, FinishPeer(st.live[s].core, g)));
  }

  /** The critical section of `handlePeerConnectionState` alone. */
  lemma PeerAlone(st: State, t: nat, s: nat, state: PeerState) returns (actions: seq<Action>)
    requires At(st, t, s, PeerStart(s, state)) && Idle(st.live[s].core)
    ensures Reaches(st, actions,
              Then(st, t, s, AfterPeer(st.live[s].core, s, state), PeerHandled(st.live[s].core, state)))
  {
    var core := st.live[s].core;
    PeerHandledIsTheSteps(core, t, state);
    actions := [Run(t, ANY)];
    if state == Disconnected && !core.cancelled {
      var locked, g := LockPeer(core, t, state), core.generation + 1;
      PeerLast(Then(st, t, s, PeerLocked(s, g), locked), t, s, g);
      StepThen(st, t, ANY, s, PeerLocked(s, g), locked, [Run(t, ANY)], Thread.Ended, FinishPeer(locked, g));
      actions := [Run(t, ANY)] + [Run(t, ANY)];
    } else {
      OneStep(st, t, ANY, Then(st, t, s, PeerAfter(s, state), LockPeer(core, t, state)));
    }
  }

  // ---- setExpiryTimer ----

  lemma TtlLast(st: State, t: nat, s: nat, e: nat)
    requires At(st, t, s, StoringTtl(e, s))
    ensures Reaches(st, [Run(t, ANY)], Then(st, t, s, Created(e, s), FinishExpiry(st.live[s].core)))
  {
    OneStep(st, t, ANY, Then(st, t, s, Created(e, s), FinishExpiry(st.live[s].core)));
  }

  /** `setExpiryTimer` alone, and with it the end of `Create`. */
  lemma TtlAlone(st: State, t: nat, s: nat, e: nat) returns (actions: seq<Action>)
    requires At(st, t, s, SettingTtl(e, s)) && Idle(st.live[s].core)
    ensures Reaches(st, actions, Then(st, t, s, Created(e, s), ExpirySet(st.live[s].core)))
  {
    var core := st.live[s].core;
    ExpirySetIsTheSteps(core, t);
    actions := [Run(t, ANY)];
    if core.cancelled {
      OneStep(st, t, ANY, Then(st, t, s, Created(e, s), LockExpiry(core, t)));
    } else {
      var locked := LockExpiry(core, t);
      TtlLast(Then(st, t, s, StoringTtl(e, s), locked), t, s, e);
      StepThen(st, t, ANY, s, StoringTtl(e, s), locked, [Run(t, ANY)], Created(e, s), FinishExpiry(locked));
      actions := [Run(t, ANY)] + [Run(t, ANY)];
    }
  }

  // ---- startAudioPrime ----

  lemma PrimeLast(st: State, t: nat, s: nat)
    requires At(st, t, s, PrimeLeaving(s))
    ensures Reaches(st, [Run(t, ANY)], Then(st, t, s, Thread.Ended, LeavePrime(st.live[s].core)))
  {
    OneStep(st, t, ANY, Then(st, t, s, Thread.Ended, LeavePrime(st.live[s].core)));
  }

  lemma PrimeStarts(st: State, t: nat, s: nat) returns (actions: seq<Action>)
    requires At(st, t, s, PrimeStarting(s))
    ensures Reaches(st, actions, Then(st, t, s, Thread.Ended, LeavePrime(StartRunner(st.live[s].core))))
  {
    var started := StartRunner(st.live[s].core);
    PrimeLast(Then(st, t, s, PrimeLeaving(s), started), t, s);
    StepThen(st, t, ANY, s, PrimeLeaving(s), started, [Run(t, ANY)], Thread.Ended, LeavePrime(started));
    actions := [Run(t, ANY)] + [Run(t, ANY)];
  }

  lemma PrimeStores(st: State, t: nat, s: nat) returns (actions: seq<Action>)
    requires At(st, t, s, PrimeLocked(s))
    ensures Reaches(st, actions,
              Then(st, t, s, Thread.Ended, LeavePrime(StartRunner(StorePrimeCancel(st.live[s].core)))))
  {
    var stored := StorePrimeCancel(st.live[s].core);
    var rest := PrimeStarts(Then(st, t, s, PrimeStarting(s), stored), t, s);
    StepThen(st, t, ANY, s, PrimeStarting(s), stored, rest, Thread.Ended, LeavePrime(StartRunner(stored)));
    actions := [Run(t, ANY)] + rest;
  }

  lemma PrimeBody(st: State, t: nat, s: nat) returns (actions: seq<Action>)
    requires At(st, t, s, PrimeInside(s)) && st.live[s].core.mu.Free? && !st.live[s].core.cancelled
    ensures Reaches(st, actions,
              Then(st, t, s, Thread.Ended, LeavePrime(StartRunner(StorePrimeCancel(LockPrime(st.live[s].core, t))))))
  {
    var locked := LockPrime(st.live[s].core, t);
    var rest := PrimeStores(Then(st, t, s, PrimeLocked(s), locked), t, s);
    StepThen(st, t, ANY, s, PrimeLocked(s), locked, rest, Thread.Ended,
             LeavePrime(StartRunner(StorePrimeCancel(locked))));
    actions := [Run(t, ANY)] + rest;
  }

  lemma PrimeOnce(st: State, t: nat, s: nat) returns (actions: seq<Action>)
    requires At(st, t, s, PrimeWaiting(s)) && Idle(st.live[s].core) && !st.live[s].core.cancelled
    ensures Reaches(st, actions, Then(st, t, s, Thread.Ended, Primed(st.live[s].core)))
  {
    var core := st.live[s].core;
    PrimedIsTheSteps(core, t);
    if core.primeOnce.Finished? {
      SameAfter(st, t, s, Thread.Ended);
      OneStep(st, t, ANY, Then(st, t, s, Thread.Ended, core));
      actions := [Run(t, ANY)];
    } else {
      var entered := EnterPrime(core, t);
      var rest := PrimeBody(Then(st, t, s, PrimeInside(s), entered), t, s);
      StepThen(st, t, ANY, s, PrimeInside(s), entered, rest, Thread.Ended,
               LeavePrime(StartRunner(StorePrimeCancel(LockPrime(entered, t)))));
      actions := [Run(t, ANY)] + rest;
    }
  }

  lemma SameAfter(st: State, t: nat, s: nat, next: Thread)
    requires s in st.live
    ensures Then(st, t, s, next, st.live[s].core) == Goto(st, t, next)
  {
    assert st.live[s := st.live[s].(core := st.live[s].core)] == st.live;
  }

  /** `startAudioPrime` alone; `ready` says that it is enabled and has a writer. */
  lemma PrimeAlone(st: State, t: nat, s: nat, ready: bool) returns (actions: seq<Action>)
    requires At(st, t, s, PrimeStart(s)) && Idle(st.live[s].core)
    ensures Reaches(st, actions,
              Then(st, t, s, Thread.Ended, if ready then Primed(st.live[s].core) else st.live[s].core))
  {
    var core := st.live[s].core;
    PrimedIsTheSteps(core, t);
    if core.cancelled || !ready {
      SameAfter(st, t, s, Thread.Ended);
      OneStep(st, t, Chose(ready), Then(st, t, s, Thread.Ended, core));
      actions := [Run(t, Chose(ready))];
    } else {
      SameAfter(st, t, s, PrimeWaiting(s));
      var rest := PrimeOnce(Then(st, t, s, PrimeWaiting(s), core), t, s);
      StepThen(st, t, Chose(ready), s, PrimeWaiting(s), core, rest, Thread.Ended, Primed(core));
      actions := [Run(t, Chose(ready))] + rest;
    }
  }

  // ---- stopAudioPrime after a Failed or Closed state ----

  lemma CutLast(st: State, t: nat, s: nat)
    requires At(st, t, s, PeerStopping(s))
    ensures Reaches(st, [Run(t, ANY)], Then(st, t, s, CallClose(s, Thread.Ended), CutPrime(st.live[s].core)))
  {
    OneStep(st, t, ANY, Then(st, t, s, CallClose(s, Thread.Ended), CutPrime(st.live[s].core)));
  }

  /** `stopAudioPrime` alone, on the way to `Close`. */
  lemma GoneAlone(st: State, t: nat, s: nat, state: PeerState) returns (actions: seq<Action>)
    requires At(st, t, s, PeerAfter(s, state)) && (state == Failed || state == PeerClosed)
    requires Idle(st.live[s].core)
    ensures Reaches(st, actions, Then(st, t, s, CallClose(s, Thread.Ended), PrimeStoppedBy(st.live[s].core)))
  {
    var core := st.live[s].core;
    actions := [Run(t, ANY)];
    if core.prime.stored {
      SameAfter(st, t, s, PeerStopping(s));
      CutLast(Then(st, t, s, PeerStopping(s), core), t, s);
      StepThen(st, t, ANY, s, PeerStopping(s), core, [Run(t, ANY)], CallClose(s, Thread.Ended), CutPrime(core));
      actions := [Run(t, ANY)] + [Run(t, ANY)];
    } else {
      SameAfter(st, t, s, CallClose(s, Thread.Ended));
      OneStep(st, t, ANY, Then(st, t, s, CallClose(s, Thread.Ended), core));
    }
  }
}
