/** Who has come to owe a `Close` gets it done: after a failed write, a failed recorder, a refused publication. */
module ProtocolDebts {
  import opened SessionSteps
  import opened Protocol
  import opened ProtocolInvariant
  import opened ProtocolRuns
  import opened ProtocolSafety
  import opened ProtocolFrames
  import opened ProtocolPeers
  import opened ProtocolTraces

  /** The session's `Close` has begun, or thread t will still call it. */
  predicate Owed(st: State, t: nat, s: nat) {
    s in st.live && (st.live[s].core.closeOnce != Fresh || (t in st.threads && Owes(st.threads[t], s)))
  }

  lemma OwedStep(st: State, a: Action, t: nat, s: nat)
    requires Inv(st) && Enabled(st, a) && Owed(st, t, s)
    ensures Owed(Apply(st, a), t, s)
  {
    BegunStays(st, a, s);
    if st.live[s].core.closeOnce == Fresh {
      if a.t == t {
        DebtStays(st, t, a.choice, s);
      } else {
        ThreadStays(st, a, t);
      }
    }
  }

  lemma {:induction false} OwedRun(st: State, actions: seq<Action>, end: State, t: nat, s: nat)
    requires Inv(st) && Reaches(st, actions, end) && Owed(st, t, s)
    ensures Owed(end, t, s)
    decreases |actions|
  {
    if actions != [] {
      OwedStep(st, actions[0], t, s);
      ApplyKeepsInv(st, actions[0]);
      OwedRun(Apply(st, actions[0]), actions[1..], end, t, s);
    }
  }

  lemma OwedMeansClosed(st: State, actions: seq<Action>, end: State, t: nat, s: nat)
    requires Inv(st) && Reaches(st, actions, end) && Owed(st, t, s)
    requires forall u :: u in end.threads ==> Returned(end.threads[u])
    ensures Done(end, s)
  {
    OwedRun(st, actions, end, t, s);
    RunsKeepInv(st, actions, end);
    assert t in end.threads ==> Returned(end.threads[t]);
    BegunAndQuiet(end, s);
  }

  lemma FailedWriteStep(st: State, t: nat, c: Choice, s: nat)
    requires RunEnabled(st, t, c) && TakesPacket(st, Run(t, c), s) && !c.ok
    ensures Owed(RunStep(st, t, c), t, s)
  {
    PacketStep(st, t, c, s);
  }

  /** When all threads have returned, a session one of whose packets could not be written is closed to the end. */
  lemma FailedWriteCloses(st: State, t: nat, c: Choice, s: nat, actions: seq<Action>, end: State)
    requires Reachable(st) && RunEnabled(st, t, c) && TakesPacket(st, Run(t, c), s) && !c.ok
    requires Reaches(RunStep(st, t, c), actions, end)
    requires forall u :: u in end.threads ==> Returned(end.threads[u])
    ensures Done(end, s)
  {
    ReachableInv(st);
    ApplyKeepsInv(st, Run(t, c));
    FailedWriteStep(st, t, c, s);
    OwedMeansClosed(RunStep(st, t, c), actions, end, t, s);
  }

  lemma FailedRecorderStep(st: State, t: nat, c: Choice, s: nat)
    requires RunEnabled(st, t, c) && st.threads[t] == TrackLocked(s) && !c.ok
    ensures Owed(RunStep(st, t, c), t, s)
  {
  }

  /** And so is one whose recorder could not be created. */
  lemma FailedRecorderCloses(st: State, t: nat, c: Choice, s: nat, actions: seq<Action>, end: State)
    requires Reachable(st) && RunEnabled(st, t, c) && st.threads[t] == TrackLocked(s) && !c.ok
    requires Reaches(RunStep(st, t, c), actions, end)
    requires forall u :: u in end.threads ==> Returned(end.threads[u])
    ensures Done(end, s)
  {
    ReachableInv(st);
    ApplyKeepsInv(st, Run(t, c));
    FailedRecorderStep(st, t, c, s);
    OwedMeansClosed(RunStep(st, t, c), actions, end, t, s);
  }
}
