/** What reaches a session's writers: one write per packet taken, one sample per turn of the prime, and nothing else. */
module ProtocolTraces {
  import opened Recording
  import opened SessionSteps
  import opened Protocol
  import opened ProtocolInvariant
  import opened ProtocolRuns
  import opened ProtocolFrames

  /** The writes that the recorder has passed on. */
  function Writes(r: Recorder): int {
    if r.closed then |r.calls| - 1 else |r.calls|
  }

  /** A step that passes nothing on to a writer. */
  predicate Silent(c: Session, c': Session) {
    Writes(c'.recording) == Writes(c.recording) && c'.prime.rounds == c.prime.rounds
  }

  predicate SilentFor(st: State, st': State, x: nat)
    requires x in st.live
  {
    x in st'.live && Silent(st.live[x].core, st'.live[x].core)
  }

  // ---- steps that write nothing ----

  lemma InsideSilent(st: State, t: nat, s: nat, core: Session, next: Thread, x: nat)
    requires s in st.live && x in st.live && (x == s ==> Silent(st.live[s].core, core))
    ensures SilentFor(st, Inside(st, t, s, core, next), x)
  {
  }

  lemma CloseRecorderSilent(core: Session)
    requires SessionInv(core) && core.phase.Drained?
    ensures Silent(core, CloseRecorder(core))
  {
    assert RecorderInv(core);
  }

  lemma BodySilent(core: Session)
    requires SessionInv(core)
    ensures Silent(core, BodyNext(core))
  {
    match core.phase
    case NotClosing =>
    case Entered => assert Silent(core, Cancel(core));
    case Cancelled => assert Silent(core, StopPrime(core));
    case PrimeStopped => assert Silent(core, Drain(core));
    case Drained(_) => CloseRecorderSilent(core);
    case RecorderDone => assert Silent(core, ClosePeer(core));
    case PeerDone => assert Silent(core, RunTerminal(core));
    case Terminal => assert Silent(core, FinishClose(core));
  }

  lemma CloseSilent(st: State, t: nat, s: nat, next: Thread, x: nat)
    requires Inv(st) && s in st.live && CloseEnabled(st.live[s].core, t) && x in st.live
    ensures SilentFor(st, StepClose(st, t, s, next), x)
  {
    LiveIn(st, s);
    var core := st.live[s].core;
    var step := StepClose(st, t, s, next);
    if core.closeOnce.Fresh? {
      InsideSilent(st, t, s, EnterClose(core, t), CallClose(s, next), x);
    } else if core.closeOnce.Running? {
      var after := if core.phase.Terminal? then next else CallClose(s, next);
      BodySilent(core);
      InsideSilent(st, t, s, BodyNext(core), after, x);
      assert step.live == Inside(st, t, s, BodyNext(core), after).live;
    }
  }

  lemma ManagerSilent(st: State, t: nat, c: Choice, x: nat)
    requires RunEnabled(st, t, c) && x in st.live && OfManager(st.threads[t])
    ensures SilentFor(st, RunStep(st, t, c), x)
  {
  }

  lemma TrackLockedSilent(st: State, t: nat, c: Choice, x: nat)
    requires Inv(st) && RunEnabled(st, t, c) && x in st.live && st.threads[t] == TrackLocked(x)
    ensures SilentFor(st, RunStep(st, t, c), x)
  {
    ThreadIn(st, t);
    LiveIn(st, x);
    assert RecorderInv(st.live[x].core);
    InsideSilent(st, t, x, FinishTrack(st.live[x].core, c.ok), if c.ok then Recording(x) else CallClose(x, Ended), x);
  }

  lemma TrackSilent(st: State, t: nat, c: Choice, x: nat)
    requires Inv(st) && RunEnabled(st, t, c) && x in st.live
    requires var th := st.threads[t]; th.TrackStart? || th.TrackLocked? || th.GraceFired?
    ensures SilentFor(st, RunStep(st, t, c), x)
  {
    if st.threads[t] == TrackLocked(x) {
      TrackLockedSilent(st, t, c, x);
    }
  }

  lemma PeerSilent(st: State, t: nat, c: Choice, x: nat)
    requires RunEnabled(st, t, c) && x in st.live
    requires var th := st.threads[t]; th.PeerStart? || th.PeerLocked? || th.PeerAfter? || th.PeerStopping?
    ensures SilentFor(st, RunStep(st, t, c), x)
  {
  }

  lemma PrimeBodySilent(st: State, t: nat, c: Choice, x: nat)
    requires RunEnabled(st, t, c) && x in st.live
    requires st.threads[t].PrimeInside? || st.threads[t].PrimeLocked?
    ensures SilentFor(st, RunStep(st, t, c), x)
  {
  }

  lemma PrimeEndSilent(st: State, t: nat, c: Choice, x: nat)
    requires RunEnabled(st, t, c) && x in st.live
    requires st.threads[t].PrimeStarting? || st.threads[t].PrimeLeaving?
    ensures SilentFor(st, RunStep(st, t, c), x)
  {
  }

  lemma PrimeSilent(st: State, t: nat, c: Choice, x: nat)
    requires RunEnabled(st, t, c) && x in st.live
    requires st.threads[t].PrimeStart? || st.threads[t].PrimeWaiting?
    ensures SilentFor(st, RunStep(st, t, c), x)
  {
  }

  lemma RunnerSilent(st: State, t: nat, c: Choice, x: nat)
    requires RunEnabled(st, t, c) && x in st.live
    requires st.threads[t].PrimeTop? || st.threads[t].PrimeSelect? || st.threads[t].PrimeTicked?
    ensures SilentFor(st, RunStep(st, t, c), x)
  {
  }

  lemma OtherWriterSilent(st: State, t: nat, c: Choice, x: nat)
    requires RunEnabled(st, t, c) && x in st.live && st.threads[t].PrimeWriting? && st.threads[t] != PrimeWriting(x)
    ensures SilentFor(st, RunStep(st, t, c), x)
  {
  }

  lemma OtherRecordingSilent(st: State, t: nat, c: Choice, x: nat)
    requires RunEnabled(st, t, c) && x in st.live && st.threads[t].Recording? && st.threads[t] != Recording(x)
    ensures SilentFor(st, RunStep(st, t, c), x)
  {
  }

  lemma RunSilent(st: State, t: nat, c: Choice, x: nat)
    requires Inv(st) && RunEnabled(st, t, c) && x in st.live
    requires st.threads[t] != Recording(x) && st.threads[t] != PrimeWriting(x)
    ensures SilentFor(st, RunStep(st, t, c), x)
  {
    var th := st.threads[t];
    if th.CallClose? {
      CloseSilent(st, t, th.session, th.next, x);
    } else if OfManager(th) {
      ManagerSilent(st, t, c, x);
    } else if th.Recording? {
      OtherRecordingSilent(st, t, c, x);
    } else if th.PrimeWriting? {
      OtherWriterSilent(st, t, c, x);
    } else if OfRunner(th) {
      RunnerSilent(st, t, c, x);
    } else if th.PrimeStart? || th.PrimeWaiting? {
      PrimeSilent(st, t, c, x);
    } else if th.PrimeInside? || th.PrimeLocked? {
      PrimeBodySilent(st, t, c, x);
    } else if OfPrime(th) {
      PrimeEndSilent(st, t, c, x);
    } else if th.TrackStart? || th.TrackLocked? || th.GraceFired? {
      TrackSilent(st, t, c, x);
    } else {
      PeerSilent(st, t, c, x);
    }
  }

  // ---- packets ----

  /** The step takes a packet and finds the session's recorder open. */
  predicate TakesPacket(st: State, a: Action, s: nat) {
    && a.Run? && a.t in st.threads && st.threads[a.t] == Recording(s) && a.choice.more
    && s in st.live && !st.live[s].core.recording.closed
  }

  /**
   * A packet taken while the recorder is open is one call of its writer and changes nothing else; a success goes on to
   * the next packet, a failure closes the session. Otherwise the loop ends and nothing at all changes.
   */
  lemma PacketStep(st: State, t: nat, c: Choice, s: nat)
    requires RunEnabled(st, t, c) && st.threads[t] == Recording(s)
    ensures var st' := RunStep(st, t, c);
            var core := st.live[s].core;
            && s in st'.live && t in st'.threads
            && (TakesPacket(st, Run(t, c), s) ==>
                  && st'.live[s].core == core.(recording := Recorder(false, core.recording.calls + [WriteCall]))
                  && st'.threads[t] == (if c.ok then Recording(s) else CallClose(s, Ended)))
            && (!TakesPacket(st, Run(t, c), s) ==> st' == Goto(st, t, Ended))
  {
    CallsExactly(st.live[s].core.recording, true);
  }

  /** The packets that a run takes for the session. */
  function PacketsTaken(st: State, actions: seq<Action>, end: State, s: nat): nat
    requires Reaches(st, actions, end)
    decreases |actions|
  {
    if actions == [] then 0
    else
      (if TakesPacket(st, actions[0], s) then 1 else 0) + PacketsTaken(Apply(st, actions[0]), actions[1..], end, s)
  }

  function WritesOf(st: State, s: nat): int {
    if s in st.live then Writes(st.live[s].core.recording) else 0
  }

  lemma EnvironmentSilent(st: State, a: Action, s: nat)
    requires Enabled(st, a) && !a.Run? && s in st.live
    ensures SilentFor(st, Apply(st, a), s)
  {
  }

  lemma PacketCounted(st: State, a: Action, s: nat)
    requires Inv(st) && Enabled(st, a) && s in st.live
    ensures s in Apply(st, a).live
    ensures WritesOf(Apply(st, a), s) == WritesOf(st, s) + if TakesPacket(st, a, s) then 1 else 0
  {
    if !a.Run? {
      EnvironmentSilent(st, a, s);
    } else if st.threads[a.t] == Recording(s) {
      PacketStep(st, a.t, a.choice, s);
    } else if st.threads[a.t] == PrimeWriting(s) {
      assert Apply(st, a).live[s].core.recording == st.live[s].core.recording;
    } else {
      RunSilent(st, a.t, a.choice, s);
    }
  }

  lemma NewSessionSilent(st: State, a: Action, s: nat)
    requires Inv(st) && Enabled(st, a) && s !in st.live
    ensures WritesOf(Apply(st, a), s) == 0 && !TakesPacket(st, a, s)
  {
    if s in Apply(st, a).live {
      NewCore(st, a, s);
    }
  }

  lemma {:induction false} PacketsCounted(st: State, actions: seq<Action>, end: State, s: nat)
    requires Inv(st) && Reaches(st, actions, end)
    ensures WritesOf(end, s) == WritesOf(st, s) + PacketsTaken(st, actions, end, s)
    decreases |actions|
  {
    if actions != [] {
      if s in st.live {
        PacketCounted(st, actions[0], s);
      } else {
        NewSessionSilent(st, actions[0], s);
      }
      ApplyKeepsInv(st, actions[0]);
      PacketsCounted(Apply(st, actions[0]), actions[1..], end, s);
    }
  }

  /** In every run the writer of a session has seen one write for each packet taken, then at most its close. */
  lemma TraceIsPackets(ttl: bool, actions: seq<Action>, end: State, s: nat)
    requires Reaches(Initial(ttl), actions, end) && s in end.live
    ensures var r := end.live[s].core.recording;
            var n := PacketsTaken(Initial(ttl), actions, end, s);
            r.calls == seq(n, _ => WriteCall) + if r.closed then [CloseCall] else []
  {
    InitialInv(ttl);
    RunsKeepInv(Initial(ttl), actions, end);
    PacketsCounted(Initial(ttl), actions, end, s);
    LiveIn(end, s);
    assert RecorderInv(end.live[s].core);
  }
}
