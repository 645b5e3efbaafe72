/**
 * Calls, peer callbacks and timers without interference, from their start to their end: what each leaves of the session
 * is what the method of the session object promises, and of the map what the manager's does.
 */
module ProtocolCallbacks {
  import opened GoText
  import opened SessionSteps
  import opened SessionSequences
  import opened Protocol
  import opened ProtocolInvariant
  import opened ProtocolRuns
  import opened ProtocolMoves
  import opened ProtocolAlone
  import opened ProtocolCalls
  import opened ProtocolOperations

  /** A new thread at th, and everything else as it is. */
  lemma SpawnThen(st: State, t: nat, th: Thread, s: nat, rest: seq<Action>, next: Thread, core: Session,
      sessions: map<string, nat>)
    requires t !in st.threads && Spawnable(st, th) && s in st.live
    requires Reaches(Goto(st, t, th), rest, After(Goto(st, t, th), t, s, next, core, sessions))
    ensures Reaches(st, [Spawn(t, th)] + rest, After(st, t, s, next, core, sessions))
  {
    assert st.threads[t := th][t := next] == st.threads[t := next];
    RunFirst(st, Spawn(t, th), rest, After(st, t, s, next, core, sessions));
  }

  lemma ClosesAfter(st: State, t: nat, s: nat, core: Session, sessions: map<string, nat>) returns (actions: seq<Action>)
    requires s in st.live && Idle(core) && core.closeOnce.Fresh?
    ensures Reaches(After(st, t, s, CallClose(s, Thread.Ended), core, sessions), actions,
              After(st, t, s, Thread.Ended, Closed(core), RemoveEntry(st.(sessions := sessions), st.live[s].entry)))
  {
    var closing := After(st, t, s, CallClose(s, Thread.Ended), core, sessions);
    var left := RemoveEntry(st.(sessions := sessions), st.live[s].entry);
    assert RemoveEntry(closing, st.live[s].entry) == left;
    AfterTwice(st, t, s, CallClose(s, Thread.Ended), Thread.Ended, core, Closed(core), sessions, left);
    actions := CloseAlone(closing, t, s, Thread.Ended);
  }

  /** A run that comes to a call of `Close`, and that call. */
  lemma ThenCloses(st: State, t: nat, s: nat, core: Session, sessions: map<string, nat>, first: seq<Action>)
    returns (actions: seq<Action>)
    requires s in st.live && Idle(core) && core.closeOnce.Fresh?
    requires Reaches(st, first, After(st, t, s, CallClose(s, Thread.Ended), core, sessions))
    ensures Reaches(st, actions, After(st, t, s, Thread.Ended, Closed(core),
                                       RemoveEntry(st.(sessions := sessions), st.live[s].entry)))
  {
    var second := ClosesAfter(st, t, s, core, sessions);
    RunThen(st, first, After(st, t, s, CallClose(s, Thread.Ended), core, sessions), second,
        After(st, t, s, Thread.Ended, Closed(core), RemoveEntry(st.(sessions := sessions), st.live[s].entry)));
    actions := first + second;
  }

  // ---- Manager.MarkConnected ----

  lemma MarkLast(st: State, t: nat, s: nat)
    requires At(st, t, s, Marking(s)) && st.live[s].core.mu.Free?
    ensures Reaches(st, [Run(t, ANY)], Then(st, t, s, Thread.Ended, st.live[s].core.(connected := true)))
  {
    OneStep(st, t, ANY, Then(st, t, s, Thread.Ended, st.live[s].core.(connected := true)));
  }

  lemma MarkFound(st: State, t: nat, id: string, s: nat) returns (actions: seq<Action>)
    requires At(st, t, s, MarkingId(id)) && Published(st, id) == Some(s) && st.live[s].core.mu.Free?
    ensures Reaches(st, actions, Then(st, t, s, Thread.Ended, st.live[s].core.(connected := true)))
  {
    var core := st.live[s].core;
    SameAfter(st, t, s, Marking(s));
    MarkLast(Then(st, t, s, Marking(s), core), t, s);
    StepThen(st, t, ANY, s, Marking(s), core, [Run(t, ANY)], Thread.Ended, core.(connected := true));
    actions := [Run(t, ANY)] + [Run(t, ANY)];
  }

  /** `Manager.MarkConnected` of a published session marks exactly that one. */
  lemma MarkAlone(st: State, t: nat, id: string, s: nat) returns (actions: seq<Action>)
    requires t !in st.threads && s in st.live && Published(st, id) == Some(s) && st.live[s].core.mu.Free?
    ensures Reaches(st, actions, Then(st, t, s, Thread.Ended, st.live[s].core.(connected := true)))
  {
    var rest := MarkFound(Goto(st, t, MarkingId(id)), t, id, s);
    SpawnThen(st, t, MarkingId(id), s, rest, Thread.Ended, st.live[s].core.(connected := true), st.sessions);
    actions := [Spawn(t, MarkingId(id))] + rest;
  }

  /** Without a published session it changes nothing. */
  lemma MarkMissing(st: State, t: nat, id: string, c: Choice)
    requires t !in st.threads && Published(st, id) == None
    ensures Reaches(st, [Spawn(t, MarkingId(id))] + [Run(t, c)], Goto(st, t, Thread.Ended))
  {
    var spawned := Goto(st, t, MarkingId(id));
    assert st.threads[t := MarkingId(id)][t := Thread.Ended] == st.threads[t := Thread.Ended];
    OneStep(spawned, t, c, Goto(st, t, Thread.Ended));
    RunFirst(st, Spawn(t, MarkingId(id)), [Run(t, c)], Goto(st, t, Thread.Ended));
  }

  // ---- Manager.Close ----

  /** The session is published under `id`, in its own entry. */
  predicate Holder(st: State, id: string, s: nat) {
    && s in st.live && Published(st, id) == Some(s)
    && id in st.sessions && st.sessions[id] == st.live[s].entry && Bound(st, st.live[s].entry)
    && st.entries[st.live[s].entry].id == id
  }

  lemma HolderOf(st: State, id: string, s: nat)
    requires Inv(st) && Published(st, id) == Some(s)
    ensures Holder(st, id, s)
  {
    PublishedLive(st, id);
    MapOf(st);
  }

  lemma FreesFirst(st: State, t: nat, id: string, s: nat, th: Thread)
    requires Published(st, id) == Some(s) && t in st.threads && st.threads[t] == th && s in st.live
    requires th == ClosingId(id) || th == Expiring(id, s)
    ensures Reaches(st, [Run(t, ANY)],
              After(st, t, s, CallClose(s, Thread.Ended), st.live[s].core, Without(st.sessions, id)))
  {
    SameAfter(st, t, s, CallClose(s, Thread.Ended));
    OneStep(st, t, ANY, Unbind(st, t, Without(st.sessions, id), CallClose(s, Thread.Ended)));
  }

  lemma ClosingAlone(st: State, t: nat, id: string, s: nat, th: Thread) returns (actions: seq<Action>)
    requires Holder(st, id, s) && t in st.threads && st.threads[t] == th
    requires th == ClosingId(id) || th == Expiring(id, s)
    requires Idle(st.live[s].core) && st.live[s].core.closeOnce.Fresh?
    ensures Reaches(st, actions,
              After(st, t, s, Thread.Ended, Closed(st.live[s].core), Without(st.sessions, id)))
  {
    var freed := Without(st.sessions, id);
    FreesFirst(st, t, id, s, th);
    assert RemoveEntry(st.(sessions := freed), st.live[s].entry) == freed;
    actions := ThenCloses(st, t, s, st.live[s].core, freed, [Run(t, ANY)]);
  }

  /** `Manager.Close` of a published session: it is closed to the end, and exactly its id is free. */
  lemma CloseIdAlone(st: State, t: nat, id: string, s: nat) returns (actions: seq<Action>)
    requires Reachable(st) && t !in st.threads && Published(st, id) == Some(s)
    requires s in st.live && Idle(st.live[s].core) && st.live[s].core.closeOnce.Fresh?
    ensures Reaches(st, actions,
              After(st, t, s, Thread.Ended, Closed(st.live[s].core), Without(st.sessions, id)))
  {
    ReachableInv(st);
    HolderOf(st, id, s);
    var rest := ClosingAlone(Goto(st, t, ClosingId(id)), t, id, s, ClosingId(id));
    SpawnThen(st, t, ClosingId(id), s, rest, Thread.Ended, Closed(st.live[s].core), Without(st.sessions, id));
    actions := [Spawn(t, ClosingId(id))] + rest;
  }

  // ---- the expiry timer ----

  /** An expiry timer that fires closes its session and frees its id. */
  lemma ExpiryAlone(st: State, t: nat, id: string, s: nat) returns (actions: seq<Action>)
    requires Reachable(st) && t !in st.threads && Published(st, id) == Some(s)
    requires s in st.live && Idle(st.live[s].core) && st.live[s].core.closeOnce.Fresh?
    requires st.live[s].core.expiryArmed
    ensures Reaches(st, actions,
              After(st, t, s, Thread.Ended, Closed(FireExpiry(st.live[s].core)), Without(st.sessions, id)))
  {
    ReachableInv(st);
    HolderOf(st, id, s);
    var core := st.live[s].core;
    FireExpiryKeeps(core, t);
    var fired := Then(st, t, s, Expiring(id, s), FireExpiry(core));
    assert Apply(st, ExpiryFires(t, s)) == fired;
    var rest := ClosingAlone(fired, t, id, s, Expiring(id, s));
    var sessions := Without(st.sessions, id);
    AfterTwice(st, t, s, Expiring(id, s), Thread.Ended, FireExpiry(core), Closed(FireExpiry(core)), st.sessions,
        sessions);
    RunFirst(st, ExpiryFires(t, s), rest, After(st, t, s, Thread.Ended, Closed(FireExpiry(core)), sessions));
    actions := [ExpiryFires(t, s)] + rest;
  }

  // ---- the grace timer ----

  /**
   * The callback of a grace timer closes the session if and only if it is open and the state that armed the timer, a
   * Disconnected one, is still the last one delivered; otherwise it changes nothing.
   */
  lemma GraceExactly(st: State, t: nat, c: Choice, s: nat, g: nat)
    requires Reachable(st) && RunEnabled(st, t, c) && st.threads[t] == GraceFired(s, g)
    ensures var st', core := RunStep(st, t, c), st.live[s].core;
            var closes := !core.cancelled && |core.delivered| == g > 0 && core.delivered[g - 1] == Disconnected;
            && (closes ==> t in st'.threads && st'.threads[t] == CallClose(s, Thread.Ended))
            && (!closes ==> st' == Goto(st, t, Thread.Ended))
  {
    ReachableInv(st);
    LiveIn(st, s);
    GraceMeans(st.live[s].core, g);
    if !StillDisconnected(st.live[s].core, g) {
      SameAfter(st, t, s, Thread.Ended);
    }
  }

  lemma GraceMeans(core: Session, g: nat)
    requires SessionInv(core)
    ensures StillDisconnected(core, g) <==>
            !core.cancelled && |core.delivered| == g > 0 && core.delivered[g - 1] == Disconnected
  {
    assert GraceInv(core);
  }

  /** What a grace timer that fires finds in a session that nobody is working on: still disconnected, and open. */
  lemma FiredFinds(core: Session, t: nat, g: nat)
    requires Idle(core) && g in core.graceArmed
    ensures var fired := FireGrace(core, g);
            && StillDisconnected(fired, g) && fired.mu.Free?
            && Idle(CheckGrace(fired, g)) && CheckGrace(fired, g).closeOnce.Fresh?
            && CheckGrace(fired, g) ==
               core.(graceArmed := core.graceArmed - {g}, graceFired := core.graceFired + {g}, graceStored := None)
  {
    assert GraceInv(core) && CloseInv(core);
    FireGraceKeeps(core, t, g);
    CheckGraceKeeps(FireGrace(core, g), t, g);
  }

  lemma GraceChecked(st: State, t: nat, s: nat, g: nat)
    requires At(st, t, s, GraceFired(s, g)) && st.live[s].core.mu.Free? && StillDisconnected(st.live[s].core, g)
    ensures Reaches(st, [Run(t, ANY)], Then(st, t, s, CallClose(s, Thread.Ended), CheckGrace(st.live[s].core, g)))
  {
    OneStep(st, t, ANY, Then(st, t, s, CallClose(s, Thread.Ended), CheckGrace(st.live[s].core, g)));
  }

  /** A grace timer that fires closes its session, and takes exactly its entry out of the map. */
  lemma GraceAlone(st: State, t: nat, s: nat, g: nat) returns (actions: seq<Action>)
    requires t !in st.threads && s in st.live && Idle(st.live[s].core) && g in st.live[s].core.graceArmed
    ensures Reaches(st, actions, After(st, t, s, Thread.Ended, Closed(CheckGrace(FireGrace(st.live[s].core, g), g)),
                                       RemoveEntry(st, st.live[s].entry)))
  {
    var core := st.live[s].core;
    FiredFinds(core, t, g);
    var fired := FireGrace(core, g);
    var at := Then(st, t, s, GraceFired(s, g), fired);
    var checked := CheckGrace(fired, g);
    GraceChecked(at, t, s, g);
    AfterTwice(st, t, s, GraceFired(s, g), CallClose(s, Thread.Ended), fired, checked, st.sessions, st.sessions);
    RunFirst(st, GraceFires(t, s, g), [Run(t, ANY)], Then(st, t, s, CallClose(s, Thread.Ended), checked));
    actions := ThenCloses(st, t, s, checked, st.sessions, [GraceFires(t, s, g)] + [Run(t, ANY)]);
  }

  // ---- OnConnectionStateChange, OnTrack ----

  /** What a callback with this state does to the session after its critical section, `go s.Close()` included. */
  function AfterState(core: Session, state: PeerState, ready: bool): Session {
    if state == Connected && ready then Primed(core)
    else if state == Failed || state == PeerClosed then Closed(PrimeStoppedBy(core))
    else core
  }

  /** The map after it: a failed or closed peer takes its session's entry out. */
  function MapAfterPeer(st: State, s: nat, state: PeerState): map<string, nat>
    requires s in st.live
  {
    if state == Failed || state == PeerClosed then RemoveEntry(st, st.live[s].entry) else st.sessions
  }

  lemma PeerConnected(st: State, t: nat, s: nat, ready: bool) returns (actions: seq<Action>)
    requires At(st, t, s, PeerAfter(s, Connected)) && Idle(st.live[s].core)
    ensures Reaches(st, actions,
              Then(st, t, s, Thread.Ended, if ready then Primed(st.live[s].core) else st.live[s].core))
  {
    var core := st.live[s].core;
    SameAfter(st, t, s, PrimeStart(s));
    var rest := PrimeAlone(Then(st, t, s, PrimeStart(s), core), t, s, ready);
    StepThen(st, t, ANY, s, PrimeStart(s), core, rest, Thread.Ended, if ready then Primed(core) else core);
    actions := [Run(t, ANY)] + rest;
  }

  lemma StoppedIsIdle(core: Session)
    requires Idle(core) && core.closeOnce.Fresh?
    ensures Idle(PrimeStoppedBy(core)) && PrimeStoppedBy(core).closeOnce.Fresh?
  {
    PrimeStoppedKeeps(core);
  }

  lemma PeerGone(st: State, t: nat, s: nat, state: PeerState) returns (actions: seq<Action>)
    requires At(st, t, s, PeerAfter(s, state)) && (state == Failed || state == PeerClosed)
    requires Idle(st.live[s].core) && st.live[s].core.closeOnce.Fresh?
    ensures Reaches(st, actions, After(st, t, s, Thread.Ended, Closed(PrimeStoppedBy(st.live[s].core)),
                                       RemoveEntry(st, st.live[s].entry)))
  {
    StoppedIsIdle(st.live[s].core);
    var first := GoneAlone(st, t, s, state);
    actions := ThenCloses(st, t, s, PrimeStoppedBy(st.live[s].core), st.sessions, first);
  }

  lemma PeerQuiet(st: State, t: nat, s: nat, state: PeerState) returns (actions: seq<Action>)
    requires At(st, t, s, PeerAfter(s, state)) && state != Connected && state != Failed && state != PeerClosed
    ensures Reaches(st, actions, Then(st, t, s, Thread.Ended, st.live[s].core))
  {
    SameAfter(st, t, s, Thread.Ended);
    OneStep(st, t, ANY, Then(st, t, s, Thread.Ended, st.live[s].core));
    actions := [Run(t, ANY)];
  }

  lemma PeerRest(st: State, t: nat, s: nat, state: PeerState, ready: bool) returns (actions: seq<Action>)
    requires At(st, t, s, PeerAfter(s, state)) && Idle(st.live[s].core) && st.live[s].core.closeOnce.Fresh?
    ensures Reaches(st, actions,
              After(st, t, s, Thread.Ended, AfterState(st.live[s].core, state, ready), MapAfterPeer(st, s, state)))
  {
    if state == Connected {
      actions := PeerConnected(st, t, s, ready);
    } else if state == Failed || state == PeerClosed {
      actions := PeerGone(st, t, s, state);
    } else {
      actions := PeerQuiet(st, t, s, state);
    }
  }

  lemma HandledIsIdle(core: Session, state: PeerState)
    requires Idle(core) && core.closeOnce.Fresh?
    ensures Idle(PeerHandled(core, state)) && PeerHandled(core, state).closeOnce.Fresh?
  {
    PeerHandledKeeps(core, state);
  }

  lemma PeerOn(st: State, t: nat, s: nat, state: PeerState, ready: bool, handled: Session, first: seq<Action>)
    returns (actions: seq<Action>)
    requires s in st.live && Idle(handled) && handled.closeOnce.Fresh?
    requires Reaches(st, first, Then(st, t, s, PeerAfter(s, state), handled))
    ensures Reaches(st, actions,
              After(st, t, s, Thread.Ended, AfterState(handled, state, ready), MapAfterPeer(st, s, state)))
  {
    var mid := Then(st, t, s, PeerAfter(s, state), handled);
    var second := PeerRest(mid, t, s, state, ready);
    var sessions, last := MapAfterPeer(st, s, state), AfterState(handled, state, ready);
    AfterTwice(st, t, s, PeerAfter(s, state), Thread.Ended, handled, last, st.sessions, sessions);
    RunThen(st, first, mid, second, After(st, t, s, Thread.Ended, last, sessions));
    actions := first + second;
  }

  lemma PeerWhole(st: State, t: nat, s: nat, state: PeerState, ready: bool) returns (actions: seq<Action>)
    requires At(st, t, s, PeerStart(s, state)) && Idle(st.live[s].core) && st.live[s].core.closeOnce.Fresh?
    ensures Reaches(st, actions,
              After(st, t, s, Thread.Ended, AfterState(PeerHandled(st.live[s].core, state), state, ready),
                    MapAfterPeer(st, s, state)))
  {
    var core := st.live[s].core;
    actions := PeerAlone(st, t, s, state);
    if state != Disconnected || core.cancelled {
      HandledIsIdle(core, state);
      actions := PeerOn(st, t, s, state, ready, PeerHandled(core, state), actions);
    }
  }

  /**
   * Any peer state delivered to an open session: Connected starts the prime if it is ready, Disconnected arms the grace
   * timer, Failed and Closed stop the prime and close the session; nothing else changes but its own binding.
   */
  lemma PeerCall(st: State, t: nat, s: nat, state: PeerState, ready: bool) returns (actions: seq<Action>)
    requires t !in st.threads && s in st.live && Idle(st.live[s].core) && st.live[s].core.closeOnce.Fresh?
    ensures Reaches(st, actions,
              After(st, t, s, Thread.Ended, AfterState(PeerHandled(st.live[s].core, state), state, ready),
                    MapAfterPeer(st, s, state)))
  {
    var th := PeerStart(s, state);
    var rest := PeerWhole(Goto(st, t, th), t, s, state, ready);
    SpawnThen(st, t, th, s, rest, Thread.Ended, AfterState(PeerHandled(st.live[s].core, state), state, ready),
        MapAfterPeer(st, s, state));
    actions := [Spawn(t, th)] + rest;
  }

  /** A remote audio track, up to its recorder: the first one on an open session gets one, the others none. */
  lemma TrackCall(st: State, t: nat, s: nat, ok: bool) returns (actions: seq<Action>)
    requires t !in st.threads && s in st.live && Idle(st.live[s].core)
    ensures Reaches(st, actions, Then(st, t, s, AfterTrack(st.live[s].core, s, ok), Tracked(st.live[s].core, ok)))
  {
    var rest := TrackAlone(Goto(st, t, TrackStart(s)), t, s, ok);
    SpawnThen(st, t, TrackStart(s), s, rest, AfterTrack(st.live[s].core, s, ok), Tracked(st.live[s].core, ok),
        st.sessions);
    actions := [Spawn(t, TrackStart(s))] + rest;
  }
}
