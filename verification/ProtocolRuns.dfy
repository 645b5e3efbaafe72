/** Every step, and so every run, keeps the invariant. */
module ProtocolRuns {
  import opened SessionSteps
  import opened Protocol
  import opened ProtocolInvariant
  import opened ProtocolSteps
  import opened ProtocolClose
  import opened ProtocolMoves
  import opened ProtocolCreate

  // ---- kinds of threads ----

  predicate OfManager(th: Thread) {
    || th.CreateStart? || th.Making? || th.SettingUp? || th.Publishing? || th.Cleanup? || th.ArmingTtl?
    || th.SettingTtl? || th.StoringTtl? || th.Expiring? || th.ClosingId? || th.ClosingAll? || th.CloseLoop?
    || th.MarkingId? || th.Marking?
  }

  predicate OfRunner(th: Thread) {
    th.PrimeTop? || th.PrimeSelect? || th.PrimeTicked? || th.PrimeWriting?
  }

  predicate OfPrime(th: Thread) {
    || th.PrimeStart? || th.PrimeWaiting? || th.PrimeInside? || th.PrimeLocked? || th.PrimeStarting? || th.PrimeLeaving?
    || OfRunner(th)
  }

  lemma RecordingRun(st: State, t: nat, s: nat, c: Choice)
    requires Inv(st) && RunEnabled(st, t, c) && st.threads[t] == Recording(s)
    ensures Steps(st, RunStep(st, t, c), t)
  {
    if !c.more || st.live[s].core.recording.closed {
      PlainGoto(st, t, s, Ended);
    } else {
      RecordingStep(st, t, s, c.ok);
    }
  }

  lemma PeerGoneRun(st: State, t: nat, s: nat, state: PeerState, c: Choice)
    requires Inv(st) && RunEnabled(st, t, c) && st.threads[t] == PeerAfter(s, state)
    requires state == Failed || state == PeerClosed
    ensures Steps(st, RunStep(st, t, c), t)
  {
    if st.live[s].core.prime.stored {
      PlainGoto(st, t, s, PeerStopping(s));
    } else {
      PlainGoto(st, t, s, CallClose(s, Ended));
    }
  }

  lemma PeerAfterRun(st: State, t: nat, s: nat, state: PeerState, c: Choice)
    requires Inv(st) && RunEnabled(st, t, c) && st.threads[t] == PeerAfter(s, state)
    ensures Steps(st, RunStep(st, t, c), t)
  {
    if state == Failed || state == PeerClosed {
      PeerGoneRun(st, t, s, state, c);
    } else {
      PlainGoto(st, t, s, if state == Connected then PrimeStart(s) else Ended);
    }
  }

  lemma PrimeStartRun(st: State, t: nat, s: nat, c: Choice)
    requires Inv(st) && RunEnabled(st, t, c) && st.threads[t] == PrimeStart(s)
    ensures Steps(st, RunStep(st, t, c), t)
  {
    PlainGoto(st, t, s, if st.live[s].core.cancelled || !c.ok then Ended else PrimeWaiting(s));
  }

  lemma PrimeWaitingRun(st: State, t: nat, s: nat, c: Choice)
    requires Inv(st) && RunEnabled(st, t, c) && st.threads[t] == PrimeWaiting(s)
    ensures Steps(st, RunStep(st, t, c), t)
  {
    if st.live[s].core.primeOnce.Finished? {
      PlainGoto(st, t, s, Ended);
    } else {
      PrimeWaitingStep(st, t, s);
    }
  }

  lemma CreateRun(st: State, t: nat, c: Choice)
    requires Inv(st) && RunEnabled(st, t, c)
    requires var th := st.threads[t]; th.CreateStart? || th.Making? || th.SettingUp? || th.Publishing? || th.Cleanup?
    ensures Steps(st, RunStep(st, t, c), t)
  {
    match st.threads[t]
    case CreateStart(id) =>
      if id in st.sessions { RejectedStep(st, t, id); } else { ReserveStep(st, t, id, c.pick); }
    case Making(e) =>
      if c.ok { AllocateStep(st, t, e, c.pick); } else { MakingFailsStep(st, t, e); }
    case SettingUp(e, s) => SettingUpStep(st, t, e, s, c.ok);
    case Publishing(e, s) =>
      if Bound(st, e) { PublishStep(st, t, e, s); } else { PublishFailsStep(st, t, e, s); }
    case Cleanup(e, closed) => CleanupStep(st, t, e, closed);
    case _ =>
  }

  lemma TtlRun(st: State, t: nat, c: Choice)
    requires Inv(st) && RunEnabled(st, t, c)
    requires var th := st.threads[t]; th.ArmingTtl? || th.SettingTtl? || th.StoringTtl?
    ensures Steps(st, RunStep(st, t, c), t)
  {
    match st.threads[t]
    case ArmingTtl(e, s) => ArmingTtlStep(st, t, s, e);
    case SettingTtl(e, s) => SettingTtlStep(st, t, s, e);
    case StoringTtl(e, s) => StoringTtlStep(st, t, s, e);
    case _ =>
  }

  lemma ManagerRun(st: State, t: nat, c: Choice)
    requires Inv(st) && RunEnabled(st, t, c)
    requires var th := st.threads[t];
             th.Expiring? || th.ClosingId? || th.ClosingAll? || th.CloseLoop? || th.MarkingId? || th.Marking?
    ensures Steps(st, RunStep(st, t, c), t)
  {
    match st.threads[t]
    case Expiring(id, s) => ExpiringStep(st, t, id, s);
    case ClosingId(id) =>
      UnbindIdStep(st, t, id, if Published(st, id).Some? then CallClose(Published(st, id).value, Ended) else Ended);
    case ClosingAll => ClosingAllStep(st, t, c.order);
    case CloseLoop(todo, targets) => CloseLoopStep(st, t, todo, targets);
    case MarkingId(id) => MarkingIdStep(st, t, id);
    case Marking(s) => MarkingStep(st, t, s);
    case _ =>
  }

  lemma TrackRun(st: State, t: nat, c: Choice)
    requires Inv(st) && RunEnabled(st, t, c)
    requires var th := st.threads[t]; th.TrackStart? || th.TrackLocked? || th.Recording? || th.GraceFired?
    ensures Steps(st, RunStep(st, t, c), t)
  {
    match st.threads[t]
    case TrackStart(s) => TrackStartStep(st, t, s);
    case TrackLocked(s) => TrackLockedStep(st, t, s, c.ok);
    case Recording(s) => RecordingRun(st, t, s, c);
    case GraceFired(s, g) => GraceFiredStep(st, t, s, g);
    case _ =>
  }

  lemma PeerStartRun(st: State, t: nat, s: nat, state: PeerState, c: Choice)
    requires Inv(st) && RunEnabled(st, t, c) && st.threads[t] == PeerStart(s, state)
    ensures Steps(st, RunStep(st, t, c), t)
  {
    PeerStartStep(st, t, s, state);
  }

  lemma PeerLockedRun(st: State, t: nat, s: nat, g: nat, c: Choice)
    requires Inv(st) && RunEnabled(st, t, c) && st.threads[t] == PeerLocked(s, g)
    ensures Steps(st, RunStep(st, t, c), t)
  {
    PeerLockedStep(st, t, s, g);
  }

  lemma PeerRun(st: State, t: nat, c: Choice)
    requires Inv(st) && RunEnabled(st, t, c)
    requires var th := st.threads[t]; th.PeerStart? || th.PeerLocked? || th.PeerAfter?
    ensures Steps(st, RunStep(st, t, c), t)
  {
    match st.threads[t]
    case PeerStart(s, state) => PeerStartRun(st, t, s, state, c);
    case PeerLocked(s, g) => PeerLockedRun(st, t, s, g, c);
    case PeerAfter(s, state) => PeerAfterRun(st, t, s, state, c);
    case _ =>
  }

  lemma PrimeTopRun(st: State, t: nat, s: nat, c: Choice)
    requires Inv(st) && RunEnabled(st, t, c) && st.threads[t] == PrimeTop(s)
    ensures Steps(st, RunStep(st, t, c), t)
  {
    ThreadIn(st, t);
    LiveIn(st, s);
    PlainGoto(st, t, s, if !c.more || PrimeDone(st.live[s].core) then Ended else PrimeSelect(s));
  }

  lemma PrimeSelectRun(st: State, t: nat, s: nat, c: Choice)
    requires Inv(st) && RunEnabled(st, t, c) && st.threads[t] == PrimeSelect(s)
    ensures Steps(st, RunStep(st, t, c), t)
  {
    ThreadIn(st, t);
    PlainGoto(st, t, s, if c.ok then PrimeTicked(s) else Ended);
  }

  lemma PrimeTickedRun(st: State, t: nat, s: nat, c: Choice)
    requires Inv(st) && RunEnabled(st, t, c) && st.threads[t] == PrimeTicked(s)
    ensures Steps(st, RunStep(st, t, c), t)
  {
    ThreadIn(st, t);
    PlainGoto(st, t, s, if PrimeDone(st.live[s].core) then Ended else PrimeWriting(s));
  }

  lemma PrimeWritingRun(st: State, t: nat, s: nat, c: Choice)
    requires Inv(st) && RunEnabled(st, t, c) && st.threads[t] == PrimeWriting(s)
    ensures Steps(st, RunStep(st, t, c), t)
  {
    if c.ok {
      PrimeWroteStep(st, t, s);
    } else {
      PrimeFailedStep(st, t, s);
    }
  }

  lemma RunnerRun(st: State, t: nat, c: Choice)
    requires Inv(st) && RunEnabled(st, t, c) && OfRunner(st.threads[t])
    ensures Steps(st, RunStep(st, t, c), t)
  {
    match st.threads[t]
    case PrimeTop(s) => PrimeTopRun(st, t, s, c);
    case PrimeSelect(s) => PrimeSelectRun(st, t, s, c);
    case PrimeTicked(s) => PrimeTickedRun(st, t, s, c);
    case PrimeWriting(s) => PrimeWritingRun(st, t, s, c);
    case _ =>
  }

  lemma PrimeBodyRun(st: State, t: nat, c: Choice)
    requires Inv(st) && RunEnabled(st, t, c)
    requires var th := st.threads[t]; th.PrimeInside? || th.PrimeLocked? || th.PrimeStarting? || th.PrimeLeaving?
    ensures Steps(st, RunStep(st, t, c), t)
  {
    match st.threads[t]
    case PrimeInside(s) => PrimeInsideStep(st, t, s);
    case PrimeLocked(s) => PrimeLockedStep(st, t, s);
    case PrimeStarting(s) => PrimeStartingStep(st, t, s);
    case PrimeLeaving(s) => PrimeLeavingStep(st, t, s);
    case _ =>
  }

  lemma PrimeRun(st: State, t: nat, c: Choice)
    requires Inv(st) && RunEnabled(st, t, c)
    requires st.threads[t].PrimeStart? || st.threads[t].PrimeWaiting? || st.threads[t].PeerStopping?
    ensures Steps(st, RunStep(st, t, c), t)
  {
    match st.threads[t]
    case PrimeStart(s) => PrimeStartRun(st, t, s, c);
    case PrimeWaiting(s) => PrimeWaitingRun(st, t, s, c);
    case PeerStopping(s) => PeerStoppingStep(st, t, s);
    case _ =>
  }

  lemma RunKeeps(st: State, t: nat, c: Choice)
    requires Inv(st) && RunEnabled(st, t, c)
    ensures Steps(st, RunStep(st, t, c), t)
  {
    var th := st.threads[t];
    if th.CreateStart? || th.Making? || th.SettingUp? || th.Publishing? || th.Cleanup? {
      CreateRun(st, t, c);
    } else if th.ArmingTtl? || th.SettingTtl? || th.StoringTtl? {
      TtlRun(st, t, c);
    } else if th.Expiring? || th.ClosingId? || th.ClosingAll? || th.CloseLoop? || th.MarkingId? || th.Marking? {
      ManagerRun(st, t, c);
    } else if th.TrackStart? || th.TrackLocked? || th.Recording? || th.GraceFired? {
      TrackRun(st, t, c);
    } else if th.CallClose? {
      CloseStep(st, t, th.session, th.next);
    } else if th.PeerStart? || th.PeerLocked? || th.PeerAfter? {
      PeerRun(st, t, c);
    } else if OfRunner(th) {
      RunnerRun(st, t, c);
    } else if th.PrimeInside? || th.PrimeLocked? || th.PrimeStarting? || th.PrimeLeaving? {
      PrimeBodyRun(st, t, c);
    } else {
      PrimeRun(st, t, c);
    }
  }

  lemma ExpiryFiresKeeps(st: State, t: nat, s: nat)
    requires Inv(st) && Enabled(st, ExpiryFires(t, s))
    ensures Steps(st, Apply(st, ExpiryFires(t, s)), t)
  {
    var core := st.live[s].core;
    LiveIn(st, s);
    FireExpiryKeeps(core, t);
    NothingGranted(st, t, s, Expiring(st.entries[st.live[s].entry].id, s));
    PlainKeeps(st, t, s, FireExpiry(core), Expiring(st.entries[st.live[s].entry].id, s));
  }

  lemma GraceFiresKeeps(st: State, t: nat, s: nat, g: nat)
    requires Inv(st) && Enabled(st, GraceFires(t, s, g))
    ensures Steps(st, Apply(st, GraceFires(t, s, g)), t)
  {
    var core := st.live[s].core;
    LiveIn(st, s);
    FireGraceKeeps(core, t, g);
    NothingGranted(st, t, s, GraceFired(s, g));
    PlainKeeps(st, t, s, FireGrace(core, g), GraceFired(s, g));
  }

  lemma RunnerBeginsKeeps(st: State, t: nat, s: nat)
    requires Inv(st) && Enabled(st, RunnerBegins(t, s))
    ensures Steps(st, Apply(st, RunnerBegins(t, s)), t)
  {
    var core := st.live[s].core;
    LiveIn(st, s);
    BeginRunnerKeeps(core, t);
    NothingGranted(st, t, s, PrimeTop(s));
    PlainKeeps(st, t, s, BeginRunner(core, t), PrimeTop(s));
  }

  /** Every step keeps the invariant. */
  lemma ApplyKeepsInv(st: State, a: Action)
    requires Inv(st) && Enabled(st, a)
    ensures Steps(st, Apply(st, a), a.t)
  {
    match a
    case Spawn(t, thread) => SpawnStep(st, t, thread);
    case ExpiryFires(t, s) => ExpiryFiresKeeps(st, t, s);
    case GraceFires(t, s, g) => GraceFiresKeeps(st, t, s, g);
    case RunnerBegins(t, s) => RunnerBeginsKeeps(st, t, s);
    case Run(t, c) => RunKeeps(st, t, c);
  }

  lemma InitialInv(ttl: bool)
    ensures Inv(Initial(ttl))
  {
  }

  lemma {:induction false} RunsKeepInv(st: State, actions: seq<Action>, end: State)
    requires Inv(st) && Reaches(st, actions, end)
    ensures Inv(end)
    decreases |actions|
  {
    if actions != [] {
      ApplyKeepsInv(st, actions[0]);
      RunsKeepInv(Apply(st, actions[0]), actions[1..], end);
    }
  }

  /** The invariant holds in every reachable state. */
  lemma ReachableInv(st: State)
    requires Reachable(st)
    ensures Inv(st)
  {
    var ttl: bool, actions: seq<Action> :| Reaches(Initial(ttl), actions, st);
    InitialInv(ttl);
    RunsKeepInv(Initial(ttl), actions, st);
  }
}
