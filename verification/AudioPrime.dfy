/** The audio prime: `runAudioPrime`'s tick, cancel and write loop against any environment. */
module AudioPrime {
  import opened GoText

  type Frame = seq<bv8>

  datatype Reason = NoReason | Duration | Cancelled
  datatype PrimeError = NoError | FramesMissing | WriteFailed

  /**
   * What one turn of the loop observes: `ctx.Err()`, the `select`, `ctx.Err()` again, the state when the write starts.
   */
  datatype Round = Round(top: bool, done: bool, after: bool, atWrite: bool, ok: bool)

  /** One call of `WriteSample`. */
  datatype Write = Write(data: Frame, cancelled: bool, ok: bool)

  datatype Outcome = Outcome(frames: nat, reason: Reason, error: PrimeError, writes: seq<Write>)

  /** A cancelled context stays cancelled. */
  predicate Coherent(rounds: seq<Round>) {
    && (forall k :: 0 <= k < |rounds| ==>
          var r := rounds[k];
          (r.top ==> r.after) && (r.done ==> r.after) && (r.after ==> r.atWrite))
    && (forall k :: 0 < k < |rounds| && rounds[k - 1].atWrite ==> rounds[k].top)
  }

  predicate Stops(r: Round) {
    r.top || r.done || r.after
  }

  /** The loop from its k-th turn on. */
  function Outcomes(encoded: seq<Frame>, target: int, rounds: seq<Round>, k: nat): Outcome
    requires encoded != [] && target <= |rounds|
    decreases target - k
  {
    if k >= target then Outcome(k, Duration, NoError, [])
    else if Stops(rounds[k]) then Outcome(k, Cancelled, NoError, [])
    else
      var write := Write(encoded[k % |encoded|], rounds[k].atWrite, rounds[k].ok);
      if !rounds[k].ok then Outcome(k, NoReason, WriteFailed, [write])
      else
        var rest := Outcomes(encoded, target, rounds, k + 1);
        rest.(writes := [write] + rest.writes)
  }

  class SampleWriter {
    ghost var writes: seq<Write>

    constructor ()
      ensures writes == []
    {
      writes := [];
    }

    method WriteSample(data: Frame, round: Round) returns (ok: bool)
      modifies this
      ensures writes == old(writes) + [Write(data, round.atWrite, round.ok)] && ok == round.ok
    {
      writes := writes + [Write(data, round.atWrite, round.ok)];
      ok := round.ok;
    }
  }

  class Ticker {
    var stopped: bool

    constructor ()
      ensures !stopped
    {
      stopped := false;
    }

    method Stop()
      modifies this
      ensures stopped
    {
      stopped := true;
    }
  }

  method RunAudioPrime(writer: SampleWriter, ticker: Ticker, target: int, encoded: seq<Frame>, rounds: seq<Round>)
    returns (frames: nat, reason: Reason, error: PrimeError)
    requires target <= |rounds|
    modifies writer, ticker
    ensures ticker.stopped
    ensures encoded == [] ==>
              frames == 0 && error == FramesMissing && reason == NoReason && writer.writes == old(writer.writes)
    ensures encoded != [] ==>
              var outcome := Outcomes(encoded, target, rounds, 0);
              && frames == outcome.frames && reason == outcome.reason && error == outcome.error
              && writer.writes == old(writer.writes) + outcome.writes
    ensures encoded != [] ==> Explained(target, rounds, reason, error)
  {
    if encoded != [] {
      ReasonsExactly(encoded, target, rounds);
    }
    if encoded == [] {
      ticker.Stop();
      return 0, NoReason, FramesMissing;
    }
    ghost var was := writer.writes;
    ghost var whole := Outcomes(encoded, target, rounds, 0);
    frames := 0;
    while frames < target
      invariant var rest := Outcomes(encoded, target, rounds, frames);
                && rest.frames == whole.frames && rest.reason == whole.reason && rest.error == whole.error
                && writer.writes + rest.writes == was + whole.writes
    {
      var round := rounds[frames];
      if round.top || round.done {
        ticker.Stop();
        return frames, Cancelled, NoError;
      }
      if round.after {
        ticker.Stop();
        return frames, Cancelled, NoError;
      }
      ghost var before := writer.writes;
      var ok := writer.WriteSample(encoded[frames % |encoded|], round);
      assert writer.writes == before + [Write(encoded[frames % |encoded|], round.atWrite, round.ok)];
      if !ok {
        ticker.Stop();
        return frames, NoReason, WriteFailed;
      }
      frames := frames + 1;
    }
    ticker.Stop();
    reason, error := Duration, NoError;
  }

  // ---- what a run means ----

  /** The i-th write of a run from turn k on carries frame (k + i) modulo n; all but a failing last one succeed. */
  lemma {:induction false} WritesInOrder(encoded: seq<Frame>, target: int, rounds: seq<Round>, k: nat)
    requires encoded != [] && target <= |rounds|
    ensures var o := Outcomes(encoded, target, rounds, k);
            && o.frames - k == (if o.error == WriteFailed then |o.writes| - 1 else |o.writes|)
            && (forall i :: 0 <= i < |o.writes| ==> o.writes[i].data == encoded[(k + i) % |encoded|])
            && (forall i :: 0 <= i < |o.writes| ==> (o.writes[i].ok <==> i < o.frames - k))
    decreases target - k
  {
    if k < target && !Stops(rounds[k]) && rounds[k].ok {
      WritesInOrder(encoded, target, rounds, k + 1);
      var rest := Outcomes(encoded, target, rounds, k + 1);
      var o := Outcomes(encoded, target, rounds, k);
      forall i | 0 <= i < |o.writes|
        ensures o.writes[i].data == encoded[(k + i) % |encoded|]
      {
        if i > 0 {
          assert o.writes[i] == rest.writes[i - 1];
        }
      }
    }
  }

  function Successes(writes: seq<Write>): (n: nat) {
    if writes == [] then 0 else Successes(writes[..|writes| - 1]) + if writes[|writes| - 1].ok then 1 else 0
  }

  lemma {:induction false} AllSucceed(writes: seq<Write>)
    requires forall i :: 0 <= i < |writes| ==> writes[i].ok
    ensures Successes(writes) == |writes|
  {
    if writes != [] {
      AllSucceed(writes[..|writes| - 1]);
    }
  }

  /** The returned number of frames is the number of successful writes. */
  lemma FramesAreSuccesses(encoded: seq<Frame>, target: int, rounds: seq<Round>)
    requires encoded != [] && target <= |rounds|
    ensures var o := Outcomes(encoded, target, rounds, 0);
            o.frames == Successes(o.writes)
  {
    WritesInOrder(encoded, target, rounds, 0);
    var o := Outcomes(encoded, target, rounds, 0);
    if o.error == WriteFailed {
      AllSucceed(o.writes[..|o.writes| - 1]);
    } else {
      AllSucceed(o.writes);
    }
  }

  /** The reason is `duration` exactly when no turn stopped and no write failed: then every target frame was sent. */
  lemma {:induction false} DurationExactly(encoded: seq<Frame>, target: int, rounds: seq<Round>, k: nat)
    requires encoded != [] && target <= |rounds|
    ensures var o := Outcomes(encoded, target, rounds, k);
            && (o.reason == Duration <==> AllPass(rounds, k, target))
            && (o.reason == Duration && k <= target ==> o.frames == target && |o.writes| == target - k)
    decreases target - k
  {
    if k < target && !Stops(rounds[k]) && rounds[k].ok {
      DurationExactly(encoded, target, rounds, k + 1);
    }
  }

  /** At most one write starts after cancellation, and it is the last one. */
  lemma {:induction false} OneLateWrite(encoded: seq<Frame>, target: int, rounds: seq<Round>, k: nat)
    requires encoded != [] && target <= |rounds| && Coherent(rounds)
    ensures var o := Outcomes(encoded, target, rounds, k);
            && (forall i :: 0 <= i < |o.writes| && o.writes[i].cancelled ==> i == |o.writes| - 1)
            && (k < target && rounds[k].top ==> o.writes == [])
    decreases target - k
  {
    if k < target && !Stops(rounds[k]) && rounds[k].ok {
      OneLateWrite(encoded, target, rounds, k + 1);
      var rest := Outcomes(encoded, target, rounds, k + 1);
      var o := Outcomes(encoded, target, rounds, k);
      assert forall i :: 0 < i < |o.writes| ==> o.writes[i] == rest.writes[i - 1];
    }
  }

  /** A run ends as cancelled only in a cancelled context. */
  lemma {:induction false} CancelledTruly(encoded: seq<Frame>, target: int, rounds: seq<Round>, k: nat)
    requires encoded != [] && target <= |rounds| && Coherent(rounds)
    ensures var o := Outcomes(encoded, target, rounds, k);
            o.reason == Cancelled ==> k <= o.frames < target && rounds[o.frames].after
    decreases target - k
  {
    if k < target && !Stops(rounds[k]) && rounds[k].ok {
      CancelledTruly(encoded, target, rounds, k + 1);
    }
  }

  // ---- the same in what the turns observe ----

  /** Neither check of the context stops this turn, and its select takes the tick. */
  predicate Passes(r: Round) {
    !r.top && !r.done && !r.after
  }

  predicate AllPass(rounds: seq<Round>, k: nat, n: int)
    requires n <= |rounds|
  {
    forall i :: k <= i < n ==> Passes(rounds[i]) && rounds[i].ok
  }

  /** Turn j is the first one that does not write successfully. */
  predicate EndsAt(rounds: seq<Round>, k: nat, j: int) {
    k <= j < |rounds| && AllPass(rounds, k, j) && !(Passes(rounds[j]) && rounds[j].ok)
  }

  lemma EndsNext(rounds: seq<Round>, k: nat, j: int)
    requires k < |rounds| && Passes(rounds[k]) && rounds[k].ok
    ensures EndsAt(rounds, k, j) <==> EndsAt(rounds, k + 1, j)
  {
    if EndsAt(rounds, k + 1, j) {
      forall i | k <= i < j
        ensures Passes(rounds[i]) && rounds[i].ok
      {
        if i > k {
          assert AllPass(rounds, k + 1, j);
        }
      }
    }
  }

  /** A write only in a turn that passed both checks. */
  lemma {:induction false} WritesPass(encoded: seq<Frame>, target: int, rounds: seq<Round>, k: nat)
    requires encoded != [] && k <= target <= |rounds|
    ensures var o := Outcomes(encoded, target, rounds, k);
            && k + |o.writes| <= target
            && (forall i :: k <= i < k + |o.writes| ==> Passes(rounds[i]))
    decreases target - k
  {
    if k < target && Passes(rounds[k]) && rounds[k].ok {
      WritesPass(encoded, target, rounds, k + 1);
    }
  }

  /** Without a turn that ends the run the target is reached. */
  lemma {:induction false} TargetReached(encoded: seq<Frame>, target: int, rounds: seq<Round>, k: nat)
    requires encoded != [] && k <= target <= |rounds| && AllPass(rounds, k, target)
    ensures var o := Outcomes(encoded, target, rounds, k);
            o.reason == Duration && o.error == NoError && o.frames == target && |o.writes| == target - k
    decreases target - k
  {
    if k < target {
      assert Passes(rounds[k]) && rounds[k].ok;
      TargetReached(encoded, target, rounds, k + 1);
    }
  }

  /** What a run reports that turn j ended. */
  predicate Reports(o: Outcome, j: int, r: Round) {
    && o.frames == j
    && (Passes(r) ==> o.error == WriteFailed && o.reason == NoReason)
    && (!Passes(r) ==> o.error == NoError && o.reason == Cancelled)
  }

  /** The first turn that does not write successfully ends the run, and nothing else does. */
  lemma {:induction false} EndReported(encoded: seq<Frame>, target: int, rounds: seq<Round>, k: nat, j: int)
    requires encoded != [] && k <= target <= |rounds| && j < target && EndsAt(rounds, k, j)
    ensures Reports(Outcomes(encoded, target, rounds, k), j, rounds[j])
    decreases target - k
  {
    if Passes(rounds[k]) && rounds[k].ok {
      EndsNext(rounds, k, j);
      EndReported(encoded, target, rounds, k + 1, j);
    }
  }

  lemma {:induction false} EndsOrPasses(rounds: seq<Round>, k: nat, target: int)
    requires k <= target <= |rounds|
    ensures AllPass(rounds, k, target) || exists j :: EndsAt(rounds, k, j) && j < target
    decreases target - k
  {
    if k < target {
      if Passes(rounds[k]) && rounds[k].ok {
        var next := k + 1;
        EndsOrPasses(rounds, next, target);
        if j :| EndsAt(rounds, next, j) && j < target {
          EndsNext(rounds, k, j);
        }
      } else {
        assert EndsAt(rounds, k, k);
      }
    }
  }

  /** What each way to end says about the turns, both ways. */
  ghost predicate Explained(target: int, rounds: seq<Round>, reason: Reason, error: PrimeError)
    requires target <= |rounds|
  {
    && (reason == Duration <==> AllPass(rounds, 0, target))
    && (reason == Cancelled <==> exists j :: EndsAt(rounds, 0, j) && j < target && !Passes(rounds[j]))
    && (error == WriteFailed <==> exists j :: EndsAt(rounds, 0, j) && j < target && Passes(rounds[j]))
  }

  /** Both directions for each reason: cancelled, duration, a failed write. */
  lemma ReasonsExactly(encoded: seq<Frame>, target: int, rounds: seq<Round>)
    requires encoded != [] && target <= |rounds|
    ensures var o := Outcomes(encoded, target, rounds, 0); Explained(target, rounds, o.reason, o.error)
  {
    var o := Outcomes(encoded, target, rounds, 0);
    if target < 0 {
      return;
    }
    EndsOrPasses(rounds, 0, target);
    if AllPass(rounds, 0, target) {
      TargetReached(encoded, target, rounds, 0);
    }
    forall j | EndsAt(rounds, 0, j) && j < target
      ensures Reports(o, j, rounds[j])
    {
      EndReported(encoded, target, rounds, 0, j);
    }
  }

  // ---- the configured duration, in nanoseconds ----

  const FRAME_DURATION := 20_000_000
  const DEFAULT_DURATION := 10_000_000_000

  /** `NewServer`: the default, then the check; None is its error. */
  function ConfiguredDuration(option: int): Option<int> {
    var duration := if option <= 0 then DEFAULT_DURATION else option;
    if duration < FRAME_DURATION || duration % FRAME_DURATION != 0 then None else Some(duration)
  }

  /** A run that ends with reason `duration` has played exactly the configured duration. */
  lemma PlaysConfiguredDuration(option: int, encoded: seq<Frame>, rounds: seq<Round>)
    requires encoded != [] && ConfiguredDuration(option).Some?
    requires ConfiguredDuration(option).value / FRAME_DURATION <= |rounds|
    ensures var duration := ConfiguredDuration(option).value;
            var o := Outcomes(encoded, duration / FRAME_DURATION, rounds, 0);
            && 0 < duration && (option > 0 ==> duration == option)
            && (o.reason == Duration ==>
                o.frames > 0 && o.frames * FRAME_DURATION == duration && Successes(o.writes) == o.frames)
            && o.frames * FRAME_DURATION <= duration
  {
    var target := ConfiguredDuration(option).value / FRAME_DURATION;
    DurationExactly(encoded, target, rounds, 0);
    FramesAreSuccesses(encoded, target, rounds);
    FramesBounded(encoded, target, rounds, 0);
  }

  lemma {:induction false} FramesBounded(encoded: seq<Frame>, target: int, rounds: seq<Round>, k: nat)
    requires encoded != [] && k <= target <= |rounds|
    ensures k <= Outcomes(encoded, target, rounds, k).frames <= target
    decreases target - k
  {
    if k < target && !Stops(rounds[k]) && rounds[k].ok {
      FramesBounded(encoded, target, rounds, k + 1);
    }
  }

  ghost predicate Multiple(duration: int, unit: int) {
    exists n: nat {:trigger Times(n, unit)} :: duration == Times(n, unit)
  }

  function Times(n: int, unit: int): int {
    n * unit
  }

  /** In nanoseconds: 10 seconds unless set; refused unless a positive multiple of 20 milliseconds. */
  lemma ConfiguredExactly(option: int)
    ensures option <= 0 ==> ConfiguredDuration(option) == Some(10_000_000_000)
    ensures option > 0 ==>
              ConfiguredDuration(option) == if Multiple(option, 20_000_000) then Some(option) else None
  {
    if option > 0 && option % FRAME_DURATION == 0 {
      assert option == Times(option / FRAME_DURATION, 20_000_000);
    }
    if n: nat :| option > 0 && option == Times(n, 20_000_000) {
      assert option % FRAME_DURATION == 0;
    }
  }
}
