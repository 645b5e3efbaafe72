/** Deadlock freedom: who waits for whom, and that the waiting has no cycle. */
module ProtocolProgress {
  import opened GoText
  import opened SessionSteps
  import opened Protocol
  import opened ProtocolInvariant
  import opened ProtocolRuns
  import opened ProtocolSafety

  /** The holder of the session's `stateMu`. */
  function Holder(st: State, s: nat): Option<nat> {
    if s in st.live && st.live[s].core.mu.Held? then Some(st.live[s].core.mu.holder) else None
  }

  function PrimeRunner(st: State, s: nat): Option<nat> {
    if s in st.live && st.live[s].core.primeOnce.Running? then Some(st.live[s].core.primeOnce.runner) else None
  }

  /** A caller of `Close` waits for the one running its body; that one waits for `stateMu` where it takes it. */
  function CloseWaitsFor(st: State, t: nat, s: nat): Option<nat>
    requires s in st.live
  {
    var core := st.live[s].core;
    if !core.closeOnce.Running? then None
    else if core.closeOnce.runner != t then Some(core.closeOnce.runner)
    else if core.phase.Cancelled? || core.phase.PrimeStopped? then Holder(st, s)
    else None
  }

  /** The thread that t waits for. */
  function WaitsFor(st: State, t: nat): Option<nat>
    requires t in st.threads
  {
    match st.threads[t]
    case SettingTtl(_, s) => Holder(st, s)
    case Marking(s) => Holder(st, s)
    case TrackStart(s) => Holder(st, s)
    case PeerStart(s, _) => Holder(st, s)
    case PeerAfter(s, state) => if state == Failed || state == PeerClosed then Holder(st, s) else None
    case PrimeInside(s) => Holder(st, s)
    case GraceFired(s, _) => Holder(st, s)
    case PrimeWaiting(s) => PrimeRunner(st, s)
    case CallClose(s, _) => if s in st.live then CloseWaitsFor(st, t, s) else None
    case _ => None
  }

  /** The order behind every wait: holders of `stateMu`, then bodies of a once, then those who wait for a body. */
  function WaitRank(st: State, t: nat): nat
    requires t in st.threads
  {
    match st.threads[t]
    case TrackLocked(_) => 0
    case PeerLocked(_, _) => 0
    case StoringTtl(_, _) => 0
    case PrimeLocked(_) => 0
    case PrimeWaiting(_) => 2
    case CallClose(s, _) => if s in st.live && st.live[s].core.closeOnce == Running(t) then 1 else 2
    case _ => 1
  }

  lemma HolderRank(st: State, s: nat)
    requires Inv(st) && Holder(st, s).Some?
    ensures var u := Holder(st, s).value;
            u in st.threads && !Returned(st.threads[u]) && WaitRank(st, u) == 0
  {
    LiveIn(st, s);
  }

  lemma RunnerRank(st: State, s: nat)
    requires Inv(st) && s in st.live
    ensures var core := st.live[s].core;
            && (core.primeOnce.Running? ==>
                  core.primeOnce.runner in st.threads && !Returned(st.threads[core.primeOnce.runner]) &&
                  WaitRank(st, core.primeOnce.runner) <= 1)
            && (core.closeOnce.Running? ==>
                  core.closeOnce.runner in st.threads && !Returned(st.threads[core.closeOnce.runner]) &&
                  WaitRank(st, core.closeOnce.runner) == 1)
  {
    LiveIn(st, s);
  }

  /** Whom a thread waits for exists, has not returned, and is lower in the order: there is no cycle. */
  lemma WaitingIsAcyclic(st: State, t: nat)
    requires Inv(st) && t in st.threads && WaitsFor(st, t).Some?
    ensures var u := WaitsFor(st, t).value;
            u in st.threads && !Returned(st.threads[u]) && WaitRank(st, u) < WaitRank(st, t)
  {
    match st.threads[t]
    case SettingTtl(_, s) => HolderRank(st, s);
    case Marking(s) => HolderRank(st, s);
    case TrackStart(s) => HolderRank(st, s);
    case PeerStart(s, _) => HolderRank(st, s);
    case PeerAfter(s, _) => HolderRank(st, s);
    case PrimeInside(s) => HolderRank(st, s);
    case GraceFired(s, _) => HolderRank(st, s);
    case PrimeWaiting(s) => RunnerRank(st, s);
    case CallClose(s, _) =>
      RunnerRank(st, s);
      if st.live[s].core.closeOnce.runner == t {
        HolderRank(st, s);
      }
    case _ =>
  }

  // ---- what the environment can always supply ----

  lemma {:induction false} FreshNumber(used: set<nat>) returns (n: nat)
    ensures n !in used
    ensures forall u :: u in used ==> u < n
  {
    if used == {} {
      n := 0;
    } else {
      var u :| u in used;
      var m := FreshNumber(used - {u});
      n := if m > u then m else u + 1;
      assert forall v :: v in used ==> v == u || v in used - {u};
    }
  }

  lemma {:induction false} Enumeration(members: set<nat>) returns (order: seq<nat>)
    ensures Enumerates(order, members)
  {
    if members == {} {
      order := [];
    } else {
      var s :| s in members;
      var rest := Enumeration(members - {s});
      order := rest + [s];
      assert forall x :: x in members ==> x == s || x in members - {s};
      assert forall i :: 0 <= i < |rest| ==> rest[i] in members - {s};
    }
  }

  // ---- progress ----

  lemma CreatorCanRun(st: State, t: nat)
    requires Inv(st) && t in st.threads
    requires var th := st.threads[t]; th.Making? || th.SettingUp? || th.Publishing? || th.Cleanup? || th.ArmingTtl?
    ensures RunEnabled(st, t, Choice(false, false, 0, []))
  {
    ThreadIn(st, t);
    EntryIn(st, EntryOf(st.threads[t]).value);
  }

  lemma OthersCanRun(st: State, t: nat, c: Choice)
    requires Inv(st) && t in st.threads && !Returned(st.threads[t]) && WaitsFor(st, t) == None
    requires var th := st.threads[t];
             && !th.CreateStart? && !th.Making? && !th.SettingUp? && !th.Publishing? && !th.Cleanup? && !th.ArmingTtl?
             && !th.ClosingAll? && !th.PrimeSelect?
    ensures RunEnabled(st, t, c)
  {
    ThreadIn(st, t);
  }

  /** A thread that waits for nobody can take a step. */
  lemma UnblockedRuns(st: State, t: nat) returns (c: Choice)
    requires Inv(st) && t in st.threads && !Returned(st.threads[t]) && WaitsFor(st, t) == None
    ensures RunEnabled(st, t, c)
  {
    c := Choice(false, false, 0, []);
    var th := st.threads[t];
    if th.CreateStart? {
      var n := FreshNumber(st.entries.Keys);
      c := Choice(false, false, n, []);
    } else if th.ClosingAll? {
      var order := Enumeration(PublishedSessions(st));
      c := Choice(false, false, 0, order);
    } else if th.PrimeSelect? {
      c := Choice(true, false, 0, []);
      ThreadIn(st, t);
    } else if th.Making? || th.SettingUp? || th.Publishing? || th.Cleanup? || th.ArmingTtl? {
      CreatorCanRun(st, t);
    } else {
      OthersCanRun(st, t, c);
    }
  }

  /** A thread is blocked exactly when it waits for another one. */
  lemma BlockedExactly(st: State, t: nat)
    requires Reachable(st) && t in st.threads && !Returned(st.threads[t])
    ensures (exists c :: RunEnabled(st, t, c)) <==> WaitsFor(st, t) == None
  {
    ReachableInv(st);
    if WaitsFor(st, t) == None {
      var c := UnblockedRuns(st, t);
    } else {
      ThreadIn(st, t);
    }
  }

  lemma {:induction false} SomeoneRuns(st: State, t: nat) returns (u: nat, c: Choice)
    requires Inv(st) && t in st.threads && !Returned(st.threads[t])
    ensures RunEnabled(st, u, c) && !Returned(st.threads[u])
    decreases WaitRank(st, t)
  {
    if WaitsFor(st, t) == None {
      u := t;
      c := UnblockedRuns(st, t);
    } else {
      WaitingIsAcyclic(st, t);
      u, c := SomeoneRuns(st, WaitsFor(st, t).value);
    }
  }

  /** No deadlock: while some thread has not returned, one of them can take a step. */
  lemma NoDeadlock(st: State, t: nat)
    requires Reachable(st) && t in st.threads && !Returned(st.threads[t])
    ensures exists u, c :: RunEnabled(st, u, c) && !Returned(st.threads[u])
  {
    ReachableInv(st);
    var u, c := SomeoneRuns(st, t);
  }
}
