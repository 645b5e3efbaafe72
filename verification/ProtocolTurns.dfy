/** The turns of the audio prime as steps of the protocol: which checks lead to a write, and which can no longer. */
module ProtocolTurns {
  import A = AudioPrime
  import opened SessionSteps
  import opened Protocol
  import opened ProtocolInvariant
  import opened ProtocolRuns
  import opened ProtocolHistory
  import opened ProtocolAlone
  import opened ProtocolFence
  import opened ProtocolCalls
  import opened ProtocolTraces

  /**
   * Either check, in a context that is done, ends the run without a write; otherwise the turn goes on. Between them
   * the select takes a tick, or ends the run in a context that is done.
   */
  lemma ChecksExactly(st: State, t: nat, c: Choice, s: nat)
    requires RunEnabled(st, t, c) && st.threads[t] in {PrimeTop(s), PrimeSelect(s), PrimeTicked(s)}
    ensures var done := st.live[s].core.cancelled || st.live[s].core.prime.stopped;
            && (done && st.threads[t] != PrimeSelect(s) ==> RunStep(st, t, c) == Goto(st, t, Thread.Ended))
            && (st.threads[t] == PrimeSelect(s) ==>
                  (done || c.ok) && RunStep(st, t, c) == Goto(st, t, if c.ok then PrimeTicked(s) else Thread.Ended))
            && (!done && st.threads[t] == PrimeTicked(s) ==> RunStep(st, t, c) == Goto(st, t, PrimeWriting(s)))
            && (!done && st.threads[t] == PrimeTop(s) ==>
                RunStep(st, t, c) == Goto(st, t, if c.more then PrimeSelect(s) else Thread.Ended))
  {
  }

  function RoundsOf(st: State, s: nat): seq<A.Round> {
    if s in st.live then st.live[s].core.prime.rounds else []
  }

  predicate Writing(st: State, s: nat) {
    exists t :: t in st.threads && st.threads[t] == PrimeWriting(s)
  }

  predicate WritesSample(st: State, a: Action, s: nat) {
    a.Run? && a.t in st.threads && st.threads[a.t] == PrimeWriting(s)
  }

  /** A write is one more turn, with what the context says by then; after a failure the runner is gone. */
  lemma SampleStep(st: State, t: nat, c: Choice, s: nat)
    requires RunEnabled(st, t, c) && st.threads[t] == PrimeWriting(s)
    ensures var st' := RunStep(st, t, c);
            var core := st.live[s].core;
            && RoundsOf(st', s) == core.prime.rounds + [A.Round(false, false, false, PrimeDone(core), c.ok)]
            && t in st'.threads && st'.threads[t] == if c.ok then PrimeTop(s) else Thread.Ended
  {
  }

  lemma RoundsStep(st: State, a: Action, s: nat)
    requires Inv(st) && Enabled(st, a) && s in st.live && !WritesSample(st, a, s)
    ensures s in Apply(st, a).live && RoundsOf(Apply(st, a), s) == RoundsOf(st, s)
  {
    if !a.Run? {
      EnvironmentSilent(st, a, s);
    } else if st.threads[a.t] == Recording(s) {
      PacketStep(st, a.t, a.choice, s);
    } else {
      RunSilent(st, a.t, a.choice, s);
    }
  }

  lemma ThreadWas(st: State, a: Action, u: nat)
    requires Inv(st) && Enabled(st, a) && u != a.t && u in Apply(st, a).threads
    ensures u in st.threads && Apply(st, a).threads[u] == st.threads[u]
  {
    ApplyKeepsInv(st, a);
  }

  /** Only the check after a tick, in a context that is not done, comes to a write. */
  lemma WritingStep(st: State, a: Action, s: nat, u: nat)
    requires Inv(st) && Enabled(st, a) && s in st.live && PrimeDone(st.live[s].core)
    requires u in Apply(st, a).threads && Apply(st, a).threads[u] == PrimeWriting(s)
    ensures Writing(st, s)
  {
    if u != a.t {
      ThreadWas(st, a, u);
    } else if a.Run? {
      NewWriter(st, a.t, a.choice, s);
    }
  }

  predicate GoesTo(st: State, t: nat, c: Choice, th: Thread) {
    RunEnabled(st, t, c) && t in RunStep(st, t, c).threads && RunStep(st, t, c).threads[t] == th
  }

  lemma CallerWritesNot(st: State, t: nat, c: Choice, s: nat)
    requires Inv(st) && GoesTo(st, t, c, PrimeWriting(s))
    ensures !st.threads[t].CallClose?
  {
    if st.threads[t].CallClose? {
      ThreadIn(st, t);
      CallerGoes(st, t, st.threads[t].session, st.threads[t].next);
    }
  }

  lemma RunnerWritesAfterTick(st: State, t: nat, c: Choice, s: nat)
    requires GoesTo(st, t, c, PrimeWriting(s)) && OfRunner(st.threads[t])
    ensures st.threads[t] == PrimeTicked(s) && !PrimeDone(st.live[s].core)
  {
  }

  lemma ManagerWritesNot(st: State, t: nat, c: Choice, s: nat)
    requires GoesTo(st, t, c, PrimeWriting(s))
    ensures !OfManager(st.threads[t])
  {
  }

  lemma StarterWritesNot(st: State, t: nat, c: Choice, s: nat)
    requires GoesTo(st, t, c, PrimeWriting(s))
    ensures var th := st.threads[t]; OfPrime(th) ==> OfRunner(th)
  {
  }

  lemma CallbackWritesNot(st: State, t: nat, c: Choice, s: nat)
    requires GoesTo(st, t, c, PrimeWriting(s))
    ensures var th := st.threads[t]; th.CallClose? || OfManager(th) || OfPrime(th)
  {
  }

  lemma NewWriter(st: State, t: nat, c: Choice, s: nat)
    requires Inv(st) && GoesTo(st, t, c, PrimeWriting(s))
    ensures st.threads[t] == PrimeTicked(s) && !PrimeDone(st.live[s].core)
  {
    CallerWritesNot(st, t, c, s);
    ManagerWritesNot(st, t, c, s);
    StarterWritesNot(st, t, c, s);
    CallbackWritesNot(st, t, c, s);
    RunnerWritesAfterTick(st, t, c, s);
  }

  lemma {:induction false} NoWriteRun(st: State, actions: seq<Action>, end: State, s: nat)
    requires Inv(st) && Reaches(st, actions, end) && s in st.live
    requires PrimeDone(st.live[s].core) && !Writing(st, s)
    ensures RoundsOf(end, s) == RoundsOf(st, s)
    decreases |actions|
  {
    if actions != [] {
      var next := Apply(st, actions[0]);
      RoundsStep(st, actions[0], s);
      if u :| u in next.threads && next.threads[u] == PrimeWriting(s) {
        WritingStep(st, actions[0], s, u);
      }
      StepLater(st, actions[0]);
      NoWriteRun(next, actions[1..], end, s);
    }
  }

  /** Some run from here writes another sample of the session. */
  ghost predicate MayWriteMore(st: State, s: nat) {
    exists actions, end: State :: Reaches(st, actions, end) && |RoundsOf(end, s)| > |RoundsOf(st, s)|
  }

  lemma WriteAlone(st: State, t: nat, s: nat) returns (end: State)
    requires At(st, t, s, PrimeWriting(s))
    ensures Reaches(st, [Run(t, ANY)], end) && |RoundsOf(end, s)| > |RoundsOf(st, s)|
  {
    end := RunStep(st, t, ANY);
    SampleStep(st, t, ANY, s);
    OneStep(st, t, ANY, end);
  }

  lemma WriterWrites(st: State, s: nat)
    requires Writing(st, s) && s in st.live
    ensures MayWriteMore(st, s)
  {
    var t :| t in st.threads && st.threads[t] == PrimeWriting(s);
    var end := WriteAlone(st, t, s);
  }

  lemma NobodyWrites(st: State, s: nat)
    requires Inv(st) && s in st.live && PrimeDone(st.live[s].core) && !Writing(st, s)
    ensures !MayWriteMore(st, s)
  {
    forall actions, end: State | Reaches(st, actions, end)
      ensures RoundsOf(end, s) == RoundsOf(st, s)
    {
      NoWriteRun(st, actions, end, s);
    }
  }

  /**
   * Once the runner's context is done, another write can start if and only if the runner has already passed the check
   * after its tick: a runner before that check, waiting, or not yet begun never writes again.
   */
  lemma LateWriteExactly(st: State, s: nat)
    requires Reachable(st) && s in st.live && PrimeDone(st.live[s].core)
    ensures MayWriteMore(st, s) <==> Writing(st, s)
  {
    ReachableInv(st);
    if Writing(st, s) {
      WriterWrites(st, s);
    } else {
      NobodyWrites(st, s);
    }
  }

  const MORE := Choice(true, true, 0, [])

  lemma TickedAlone(st: State, t: nat, s: nat) returns (actions: seq<Action>, end: State)
    requires At(st, t, s, PrimeTicked(s)) && !PrimeDone(st.live[s].core)
    ensures Reaches(st, actions, end) && At(end, t, s, PrimeTop(s))
    ensures RoundsOf(end, s) == RoundsOf(st, s) + [A.Round(false, false, false, false, true)]
  {
    var writes := Goto(st, t, PrimeWriting(s));
    end := RunStep(writes, t, MORE);
    SampleStep(writes, t, MORE, s);
    ChecksExactly(st, t, MORE, s);
    OneStep(writes, t, MORE, end);
    RunFirst(st, Run(t, MORE), [Run(t, MORE)], end);
    actions := [Run(t, MORE)] + [Run(t, MORE)];
  }

  lemma SelectAlone(st: State, t: nat, s: nat) returns (actions: seq<Action>, end: State)
    requires At(st, t, s, PrimeSelect(s)) && !PrimeDone(st.live[s].core)
    ensures Reaches(st, actions, end) && At(end, t, s, PrimeTop(s))
    ensures RoundsOf(end, s) == RoundsOf(st, s) + [A.Round(false, false, false, false, true)]
  {
    var ticked := Goto(st, t, PrimeTicked(s));
    var rest;
    rest, end := TickedAlone(ticked, t, s);
    RunFirst(st, Run(t, MORE), rest, end);
    actions := [Run(t, MORE)] + rest;
  }

  /** In a context that is not done, a turn comes to its write and back to the loop head. */
  lemma TurnAlone(st: State, t: nat, s: nat) returns (actions: seq<Action>, end: State)
    requires At(st, t, s, PrimeTop(s)) && !PrimeDone(st.live[s].core)
    ensures Reaches(st, actions, end) && At(end, t, s, PrimeTop(s))
    ensures RoundsOf(end, s) == RoundsOf(st, s) + [A.Round(false, false, false, false, true)]
  {
    ChecksExactly(st, t, MORE, s);
    var selects := Goto(st, t, PrimeSelect(s));
    var rest;
    rest, end := SelectAlone(selects, t, s);
    RunFirst(st, Run(t, MORE), rest, end);
    actions := [Run(t, MORE)] + rest;
  }

  /** A runner whose context is not done when it begins comes to its first write. */
  lemma RunnerAlone(st: State, t: nat, s: nat) returns (actions: seq<Action>, end: State)
    requires t !in st.threads && s in st.live && st.live[s].core.prime.runner.Scheduled?
    requires !PrimeDone(st.live[s].core)
    ensures Reaches(st, actions, end) && At(end, t, s, PrimeTop(s))
    ensures RoundsOf(end, s) == RoundsOf(st, s) + [A.Round(false, false, false, false, true)]
  {
    var begun := Then(st, t, s, PrimeTop(s), BeginRunner(st.live[s].core, t));
    var rest;
    rest, end := TurnAlone(begun, t, s);
    RunFirst(st, RunnerBegins(t, s), rest, end);
    actions := [RunnerBegins(t, s)] + rest;
  }
}
