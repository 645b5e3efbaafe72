/** What becomes of a session whose expiry fires: no session that a Create returned can outlive its TTL unnoticed. */
module ProtocolExpiry {
  import opened GoText
  import opened Protocol
  import opened ProtocolInvariant
  import opened ProtocolRuns
  import opened ProtocolHistory
  import opened ProtocolSafety
  import opened ProtocolMoves
  import opened ProtocolFrames

  predicate Expires(st: State, s: nat)
    requires s in st.live && st.live[s].entry in st.entries
  {
    exists t :: t in st.threads && st.threads[t] == Expiring(st.entries[st.live[s].entry].id, s)
  }

  /** A timer was started only for a published session; while a fired one is still in the map, its `expire` runs. */
  predicate ExpiryOk(st: State, s: nat)
    requires s in st.live
  {
    var live := st.live[s];
    && live.entry in st.entries
    && (live.core.expiryArmed || live.core.expiryFired ==> st.entries[live.entry].session == Some(s))
    && (live.core.expiryFired && Bound(st, live.entry) ==> Expires(st, s))
  }

  ghost predicate AllExpiryOk(st: State) {
    forall s :: s in st.live ==> ExpiryOk(st, s)
  }

  /** The step of `expire` itself: if the session is still there, it goes. */
  lemma ExpiringRemoves(st: State, t: nat, c: Choice, s: nat)
    requires Inv(st) && s in st.live && RunEnabled(st, t, c)
    requires st.live[s].entry in st.entries && st.entries[st.live[s].entry].session == Some(s)
    requires st.threads[t] == Expiring(st.entries[st.live[s].entry].id, s)
    ensures !Bound(RunStep(st, t, c), st.live[s].entry)
  {
  }

  lemma ExpiresStays(st: State, a: Action, s: nat)
    requires Inv(st) && Enabled(st, a) && s in st.live && ExpiryOk(st, s) && st.live[s].core.expiryFired
    requires st.entries[st.live[s].entry].session == Some(s) && Expires(st, s)
    ensures var st' := Apply(st, a);
            s in st'.live && st'.live[s].entry in st'.entries && (Bound(st', st'.live[s].entry) ==> Expires(st', s))
  {
    var id := st.entries[st.live[s].entry].id;
    var u :| u in st.threads && st.threads[u] == Expiring(id, s);
    StepLater(st, a);
    if a.t == u {
      ExpiringRemoves(st, u, a.choice, s);
    } else {
      ThreadStays(st, a, u);
    }
  }

  lemma ArmedIsPublished(st: State, a: Action, s: nat)
    requires Inv(st) && Enabled(st, a) && s in st.live
    requires a.Run? && st.threads[a.t].ArmingTtl? && st.threads[a.t].session == s
    ensures st.live[s].entry in st.entries && st.entries[st.live[s].entry].session == Some(s)
  {
    ThreadIn(st, a.t);
    EntryIn(st, st.threads[a.t].entry);
  }

  lemma StepFires(st: State, a: Action, s: nat)
    requires Inv(st) && Enabled(st, a) && s in st.live
    ensures s in Apply(st, a).live
    ensures var c, c' := st.live[s].core, Apply(st, a).live[s].core;
            || Unfired(c, c')
            || (a.Run? && st.threads[a.t].ArmingTtl? && st.threads[a.t].session == s && c'.expiryFired == c.expiryFired)
            || (a.ExpiryFires? && a.session == s && c.expiryArmed)
  {
    if a.Run? {
      if st.threads[a.t].ArmingTtl? && st.threads[a.t].session == s {
        ArmingIsUndelivered(st, a.t, a.choice, s);
      } else if st.threads[a.t].PeerStart? {
        DeliveringIsUnfired(st, a.t, a.choice, s);
      } else {
        RunIsQuiet(st, a.t, a.choice, s);
      }
    }
  }

  lemma ExpiryStep(st: State, a: Action, s: nat)
    requires Inv(st) && Enabled(st, a) && s in st.live && ExpiryOk(st, s)
    ensures s in Apply(st, a).live && ExpiryOk(Apply(st, a), s)
  {
    var st' := Apply(st, a);
    StepFires(st, a, s);
    StepLater(st, a);
    if st.entries[st.live[s].entry].session == Some(s) {
      SessionStays(st, a, st.live[s].entry);
      if st.live[s].core.expiryFired && Bound(st, st.live[s].entry) {
        ExpiresStays(st, a, s);
      } else if a.ExpiryFires? && a.session == s {
        assert st'.threads[a.t] == Expiring(st'.entries[st'.live[s].entry].id, s);
      }
    } else if a.Run? && st.threads[a.t].ArmingTtl? && st.threads[a.t].session == s {
      ArmedIsPublished(st, a, s);
    }
  }

  lemma NewSessionExpiry(st: State, a: Action, s: nat)
    requires Inv(st) && Enabled(st, a) && s !in st.live && s in Apply(st, a).live
    ensures ExpiryOk(Apply(st, a), s)
  {
    NewCore(st, a, s);
    ApplyKeepsInv(st, a);
    LiveIn(Apply(st, a), s);
  }

  lemma {:induction false} ExpiryRun(st: State, actions: seq<Action>, end: State)
    requires Inv(st) && AllExpiryOk(st) && Reaches(st, actions, end)
    ensures AllExpiryOk(end)
    decreases |actions|
  {
    if actions != [] {
      var st' := Apply(st, actions[0]);
      forall s | s in st'.live
        ensures ExpiryOk(st', s)
      {
        if s in st.live {
          ExpiryStep(st, actions[0], s);
        } else {
          NewSessionExpiry(st, actions[0], s);
        }
      }
      ApplyKeepsInv(st, actions[0]);
      ExpiryRun(st', actions[1..], end);
    }
  }

  lemma ReachableExpiry(st: State)
    requires Reachable(st)
    ensures Inv(st) && AllExpiryOk(st)
  {
    ReachableInv(st);
    var ttl: bool, actions: seq<Action> :| Reaches(Initial(ttl), actions, st);
    InitialInv(ttl);
    ExpiryRun(Initial(ttl), actions, st);
  }

  /** A session whose expiry fired is out of the map, or its `expire` has still to look. */
  lemma FiredLeavesMap(st: State, s: nat, id: string)
    requires Reachable(st) && s in st.live && st.live[s].core.expiryFired && Published(st, id) == Some(s)
    ensures exists t :: t in st.threads && st.threads[t] == Expiring(id, s)
  {
    ReachableExpiry(st);
    PublishedLive(st, id);
    MapOf(st);
    assert ExpiryOk(st, s);
  }

  /**
   * With a TTL, once all threads have returned, every session a Create answered with is closed or has its timer
   * running.
   */
  lemma TtlNeverLost(st: State, t: nat)
    requires Reachable(st) && st.ttl && t in st.threads && st.threads[t].Created?
    requires forall u :: u in st.threads ==> Returned(st.threads[u])
    ensures var s := st.threads[t].session;
            && s in st.live
            && (|| Done(st, s)
                || (st.live[s].core.expiryStored && st.live[s].core.expiryArmed && !st.live[s].core.cancelled))
  {
    var s := st.threads[t].session;
    TtlCoverage(st, t);
    ReachableInv(st);
    LiveIn(st, s);
    QuietMeansPublishedOrClosed(st, s);
    if !Done(st, s) {
      var id :| Published(st, id) == Some(s);
      if st.live[s].core.expiryFired {
        FiredLeavesMap(st, s, id);
      }
    }
  }
}
