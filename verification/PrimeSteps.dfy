/** The audio prime of one session: its cancel function, the goroutine that runs it, and what that one observed. */
module PrimeSteps {
  import A = AudioPrime

  /** The goroutine started by `go`: not there, not yet running, or running; `late` if its context was done by then. */
  datatype Runner = NoRunner | Scheduled | RunBy(thread: nat, late: bool)

  datatype Prime = Prime(
    stored: bool,            // s.audioPrimeCancel != nil
    stopped: bool,           // primeCtx was cancelled on its own, not through the session's context
    started: nat,            // `go` statements executed
    runner: Runner,
    rounds: seq<A.Round>)    // the turns of runAudioPrime that came to a write

  const NO_PRIME := Prime(false, false, 0, NoRunner, [])

  function StoreCancel(p: Prime): Prime {
    p.(stored := true)
  }

  function Start(p: Prime): Prime {
    p.(started := p.started + 1, runner := Scheduled)
  }

  /** The goroutine begins to run as thread t; `done` tells whether its context is done already. */
  function Begin(p: Prime, t: nat, done: bool): Prime {
    p.(runner := RunBy(t, done))
  }

  /** A write starts: both checks of this turn have passed. */
  function WriteOne(p: Prime, done: bool, ok: bool): Prime {
    p.(rounds := p.rounds + [A.Round(false, false, false, done, ok)])
  }

  function Cut(p: Prime): Prime {
    p.(stopped := true)
  }

  predicate LastOk(p: Prime) {
    p.rounds != [] ==> p.rounds[|p.rounds| - 1].ok
  }

  predicate LastInTime(p: Prime) {
    p.rounds != [] ==> !p.rounds[|p.rounds| - 1].atWrite
  }

  /** All writes but the last succeeded and started in time. */
  predicate RoundsOk(rounds: seq<A.Round>) {
    && (forall i :: 0 <= i < |rounds| ==> !A.Stops(rounds[i]))
    && (forall i :: 0 <= i < |rounds| - 1 ==> rounds[i].ok && !rounds[i].atWrite)
  }

  /** `done` is what the runner's context says now. */
  predicate PrimeOk(p: Prime, done: bool) {
    && p.started == (if p.runner.NoRunner? then 0 else 1)
    && (p.started == 1 || p.stopped ==> p.stored)
    && (p.runner.RunBy? && p.runner.late ==> done)
    && (p.rounds != [] ==> p.runner.RunBy? && !p.runner.late)
    && (!done ==> LastInTime(p))
    && RoundsOk(p.rounds)
  }

  predicate LateFrom(rounds: seq<A.Round>, n: nat) {
    forall i :: n <= i < |rounds| ==> rounds[i].atWrite
  }

  predicate RoundsExtend(rounds: seq<A.Round>, rounds': seq<A.Round>) {
    |rounds| <= |rounds'| && rounds'[..|rounds|] == rounds
  }

  /** Nothing is undone; once the context is done, writes are late, and a goroutine that begins begins late. */
  predicate PrimeForward(p: Prime, p': Prime, done: bool) {
    && (p.stored ==> p'.stored)
    && (p.stopped ==> p'.stopped)
    && p.started <= p'.started
    && (p.runner.RunBy? ==> p'.runner == p.runner)
    && (p.runner.Scheduled? ==> !p'.runner.NoRunner?)
    && (done && !p.runner.RunBy? && p'.runner.RunBy? ==> p'.runner.late)
    && RoundsExtend(p.rounds, p'.rounds)
    && (done ==> LateFrom(p'.rounds, |p.rounds|))
  }

  lemma PrimeForwardSame(p: Prime, done: bool)
    ensures PrimeForward(p, p, done)
  {
  }

  lemma PrimeForwardTransitive(p: Prime, q: Prime, r: Prime, done: bool, done': bool)
    requires PrimeForward(p, q, done) && PrimeForward(q, r, done') && (done ==> done')
    ensures PrimeForward(p, r, done)
  {
    assert p.rounds == q.rounds[..|p.rounds|] == r.rounds[..|p.rounds|];
    if done {
      forall i | |p.rounds| <= i < |r.rounds|
        ensures r.rounds[i].atWrite
      {
        if i < |q.rounds| {
          assert r.rounds[i] == r.rounds[..|q.rounds|][i];
        }
      }
    }
  }

  lemma StoreKeeps(p: Prime, done: bool)
    requires PrimeOk(p, done)
    ensures PrimeOk(StoreCancel(p), done) && PrimeForward(p, StoreCancel(p), done)
  {
  }

  lemma StartKeeps(p: Prime, done: bool)
    requires PrimeOk(p, done) && p.stored && p.started == 0
    ensures PrimeOk(Start(p), done) && PrimeForward(p, Start(p), done)
  {
  }

  lemma BeginKeeps(p: Prime, t: nat, done: bool)
    requires PrimeOk(p, done) && p.runner.Scheduled?
    ensures PrimeOk(Begin(p, t, done), done) && PrimeForward(p, Begin(p, t, done), done)
  {
  }

  /** Having passed its checks in time, the runner may write, even if its context is done since. */
  lemma WriteKeeps(p: Prime, done: bool, ok: bool)
    requires PrimeOk(p, done) && p.runner.RunBy? && !p.runner.late && LastOk(p) && LastInTime(p)
    ensures PrimeOk(WriteOne(p, done, ok), done) && PrimeForward(p, WriteOne(p, done, ok), done)
    ensures WriteOne(p, done, ok).runner == p.runner && (ok ==> LastOk(WriteOne(p, done, ok)))
  {
    var rounds := WriteOne(p, done, ok).rounds;
    assert forall i :: 0 <= i < |p.rounds| ==> rounds[i] == p.rounds[i];
  }

  lemma CutKeeps(p: Prime, done: bool)
    requires PrimeOk(p, done) && p.stored
    ensures PrimeOk(Cut(p), true) && PrimeForward(p, Cut(p), done)
  {
  }

  /** Late writes are the last one at most. */
  lemma OneLateRound(rounds: seq<A.Round>, n: nat)
    requires RoundsOk(rounds) && LateFrom(rounds, n)
    ensures |rounds| <= n + 1
  {
    var late := n < |rounds| && rounds[n].atWrite;
  }

  /** A context that becomes done changes nothing that was written. */
  lemma DoneKeeps(p: Prime, done: bool)
    requires PrimeOk(p, done)
    ensures PrimeOk(p, true)
  {
  }
}
