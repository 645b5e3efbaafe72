/** The audio prime's goroutine in the protocol: at most one, and at most one write after its context is done. */
module ProtocolPrime {
  import A = AudioPrime
  import opened PrimeSteps
  import opened SessionSteps
  import opened Protocol
  import opened ProtocolInvariant
  import opened ProtocolRuns
  import opened ProtocolHistory
  import opened ProtocolAlone

  lemma PrimeIn(st: State, s: nat)
    requires Inv(st) && s in st.live
    ensures PrimeInv(st.live[s].core)
    ensures st.live[s].core.primeOnce.Running? ==>
              var t := st.live[s].core.primeOnce.runner; t in st.threads && InPrime(st.threads[t], s)
  {
    LiveIn(st, s);
  }

  predicate Starting(st: State, s: nat) {
    exists t :: t in st.threads && st.threads[t] == PrimeStarting(s)
  }

  /** A stored cancel function without a runner belongs to a thread between `Unlock` and `go`. */
  lemma StoredIsStarting(st: State, s: nat)
    requires Inv(st) && s in st.live && st.live[s].core.prime.stored && st.live[s].core.prime.started == 0
    ensures Starting(st, s)
  {
    PrimeIn(st, s);
    var t := st.live[s].core.primeOnce.runner;
    ThreadIn(st, t);
    LiveIn(st, s);
    assert st.threads[t] == PrimeStarting(s);
  }

  /**
   * At most one runner per session, only after its cancel function was stored; a stored cancel function has its runner
   * as soon as the storing thread has passed its `go` statement.
   */
  lemma OnePrimeRunner(st: State, s: nat)
    requires Reachable(st) && s in st.live
    ensures var p := st.live[s].core.prime;
            && p.started <= 1
            && (p.started == 1 ==> p.stored)
            && (p.stored && !Starting(st, s) ==> p.started == 1)
    ensures forall t, u ::
              t in st.threads && u in st.threads && RunnerOf(st.threads[t], s) && RunnerOf(st.threads[u], s) ==> t == u
  {
    ReachableInv(st);
    PrimeIn(st, s);
    if st.live[s].core.prime.stored && st.live[s].core.prime.started == 0 {
      StoredIsStarting(st, s);
    }
    forall t, u | t in st.threads && u in st.threads && RunnerOf(st.threads[t], s) && RunnerOf(st.threads[u], s)
      ensures t == u
    {
      RunnerThread(st, t, s);
      RunnerThread(st, u, s);
    }
  }

  predicate RunnerOf(th: Thread, s: nat) {
    OfRunner(th) && th.session == s
  }

  lemma RunnerThread(st: State, t: nat, s: nat)
    requires Inv(st) && t in st.threads && RunnerOf(st.threads[t], s)
    ensures s in st.live && RunsPrime(st.live[s].core.prime, t)
  {
    ThreadIn(st, t);
  }

  /** What the runner wrote is what `RunAudioPrime` writes when it observes these turns. */
  lemma {:induction false} WritesOfRounds(encoded: seq<A.Frame>, rounds: seq<A.Round>, k: nat)
    requires encoded != [] && RoundsOk(rounds) && k <= |rounds|
    ensures var o := A.Outcomes(encoded, |rounds|, rounds, k);
            && |o.writes| == |rounds| - k
            && forall i :: 0 <= i < |o.writes| ==>
                 o.writes[i] == A.Write(encoded[(k + i) % |encoded|], rounds[k + i].atWrite, rounds[k + i].ok)
    decreases |rounds| - k
  {
    if k < |rounds| && rounds[k].ok {
      WritesOfRounds(encoded, rounds, k + 1);
      var rest := A.Outcomes(encoded, |rounds|, rounds, k + 1);
      var o := A.Outcomes(encoded, |rounds|, rounds, k);
      assert o.writes == [A.Write(encoded[k % |encoded|], rounds[k].atWrite, rounds[k].ok)] + rest.writes;
    }
  }

  /**
   * Whatever the interleaving, the runner's turns are a coherent environment of `RunAudioPrime`: its i-th write carries
   * frame i modulo n, and at most the last one started after its context was done.
   */
  lemma RunnerMatchesLoop(st: State, s: nat, encoded: seq<A.Frame>)
    requires Reachable(st) && s in st.live && encoded != []
    ensures var rounds := st.live[s].core.prime.rounds;
            var o := A.Outcomes(encoded, |rounds|, rounds, 0);
            && A.Coherent(rounds)
            && |o.writes| == |rounds|
            && (forall i :: 0 <= i < |rounds| ==> o.writes[i].data == encoded[i % |encoded|])
            && (forall i :: 0 <= i < |rounds| && o.writes[i].cancelled ==> i == |rounds| - 1)
  {
    ReachableInv(st);
    PrimeIn(st, s);
    var rounds := st.live[s].core.prime.rounds;
    WritesOfRounds(encoded, rounds, 0);
    A.OneLateWrite(encoded, |rounds|, rounds, 0);
  }

  lemma PrimeRunForward(st: State, actions: seq<Action>, end: State, s: nat)
    requires Reachable(st) && Reaches(st, actions, end) && s in st.live
    ensures s in end.live && PrimeInv(end.live[s].core) && Inv(end)
    ensures var p, p' := st.live[s].core.prime, end.live[s].core.prime;
            p' == p || PrimeForward(p, p', PrimeDone(st.live[s].core))
    ensures PrimeDone(st.live[s].core) ==> PrimeDone(end.live[s].core)
  {
    ReachableInv(st);
    RunLater(st, actions, end);
    PrimeIn(end, s);
  }

  /**
   * Once the runner's context is done, by `Close` or by its own cancel function, at most one more write starts, in any
   * run; and none at all unless the runner ran before.
   */
  lemma OneMoreWrite(st: State, actions: seq<Action>, end: State, s: nat)
    requires Reachable(st) && Reaches(st, actions, end)
    requires s in st.live && PrimeDone(st.live[s].core)
    ensures s in end.live
    ensures |end.live[s].core.prime.rounds| <= |st.live[s].core.prime.rounds| + 1
    ensures !st.live[s].core.prime.runner.RunBy? ==> end.live[s].core.prime.rounds == []
  {
    PrimeRunForward(st, actions, end, s);
    ReachableInv(st);
    PrimeIn(st, s);
    if end.live[s].core.prime != st.live[s].core.prime {
      OneLateRound(end.live[s].core.prime.rounds, |st.live[s].core.prime.rounds|);
    }
  }

  /**
   * A runner that begins after `Close` has been through `stopAudioPrime` belongs to a cancel function stored before,
   * and writes nothing.
   */
  lemma LateRunnerIsSilent(st: State, actions: seq<Action>, end: State, s: nat)
    requires Reachable(st) && Reaches(st, actions, end)
    requires s in st.live && Rank(st.live[s].core.phase) >= 3 && !st.live[s].core.prime.runner.RunBy?
    ensures s in end.live && end.live[s].core.prime.rounds == []
    ensures end.live[s].core.prime.started == 1 ==> st.live[s].core.prime.stored
  {
    ReachableInv(st);
    LiveIn(st, s);
    OneMoreWrite(st, actions, end, s);
    RunLater(st, actions, end);
    PrimeRunForward(st, actions, end, s);
  }

  lemma StartingStep(st: State, t: nat, s: nat) returns (end: State)
    requires Inv(st) && t in st.threads && st.threads[t] == PrimeStarting(s)
    ensures Reaches(st, [Run(t, ANY)], end)
    ensures s in st.live && s in end.live && end.live[s].core.prime.started == st.live[s].core.prime.started + 1
  {
    ThreadIn(st, t);
    end := RunStep(st, t, ANY);
    RunFirst(st, Run(t, ANY), [], end);
    assert [Run(t, ANY)] + [] == [Run(t, ANY)];
  }

  /** Some run from here starts a runner of the session. */
  ghost predicate MayStart(st: State, s: nat)
    requires s in st.live
  {
    exists actions, end: State ::
      Reaches(st, actions, end) && s in end.live && end.live[s].core.prime.started > st.live[s].core.prime.started
  }

  /**
   * With `Close` past `stopAudioPrime`, a runner can still start exactly if its thread is between `Unlock` and `go`.
   */
  lemma StartsAfterCloseExactly(st: State, s: nat)
    requires Reachable(st) && s in st.live && Rank(st.live[s].core.phase) >= 3
    ensures MayStart(st, s) <==> Starting(st, s)
  {
    ReachableInv(st);
    if Starting(st, s) {
      var t :| t in st.threads && st.threads[t] == PrimeStarting(s);
      var end := StartingStep(st, t, s);
    } else {
      forall actions, end: State | Reaches(st, actions, end)
        ensures s in end.live && end.live[s].core.prime.started <= st.live[s].core.prime.started
      {
        NoneStarts(st, actions, end, s);
      }
    }
  }

  lemma NoneStarts(st: State, actions: seq<Action>, end: State, s: nat)
    requires Reachable(st) && Reaches(st, actions, end)
    requires s in st.live && Rank(st.live[s].core.phase) >= 3 && !Starting(st, s)
    ensures s in end.live && end.live[s].core.prime.started <= st.live[s].core.prime.started
  {
    ReachableInv(st);
    if st.live[s].core.prime.stored && st.live[s].core.prime.started == 0 {
      StoredIsStarting(st, s);
    }
    RunLater(st, actions, end);
    PrimeRunForward(st, actions, end, s);
  }
}
