/** The steps of `Manager.Create` keep the protocol's invariant. */
module ProtocolCreate {
  import opened GoText
  import opened SessionSteps
  import opened Protocol
  import opened ProtocolInvariant
  import opened ProtocolSteps
  import opened ProtocolMoves

  // ---- reservation and NewSession ----

  lemma ReserveFrame(st: State, t: nat, id: string, e: nat)
    requires Inv(st) && t in st.threads && st.threads[t] == CreateStart(id)
    requires id !in st.sessions && e !in st.entries
    ensures var st' := Reserve(st, t, id, e);
            Evolves(st, st', t) && MapOk(st') && (forall x :: x in st.entries ==> Bound(st', x) == Bound(st, x))
  {
    var st' := Reserve(st, t, id, e);
    MapOf(st);
    forall x | x in st.live
      ensures StepOf(st.live[x].core, st'.live[x].core, t)
    {
      StepOfItself(st.live[x].core, t);
    }
  }

  lemma ReserveAnswers(st: State, t: nat, id: string, e: nat, s: nat)
    requires Inv(st) && t in st.threads && st.threads[t] == CreateStart(id)
    requires id !in st.sessions && e !in st.entries && s in st.live
    ensures Answers(Reserve(st, t, id, e), t, s)
  {
    ReserveFrame(st, t, id, e);
    LiveIn(st, s);
    NothingGranted(st, t, s, Making(e));
  }

  lemma ReserveDrops(st: State, t: nat, id: string, e: nat, s: nat)
    requires Inv(st) && t in st.threads && st.threads[t] == CreateStart(id)
    requires id !in st.sessions && e !in st.entries && s in st.live
    ensures NotDropped(st, Reserve(st, t, id, e), t, s)
  {
    ReserveFrame(st, t, id, e);
    LiveIn(st, s);
  }

  lemma ReserveStep(st: State, t: nat, id: string, e: nat)
    requires Inv(st) && t in st.threads && st.threads[t] == CreateStart(id)
    requires id !in st.sessions && e !in st.entries
    ensures Steps(st, Reserve(st, t, id, e), t)
  {
    var st' := Reserve(st, t, id, e);
    ReserveFrame(st, t, id, e);
    forall s | s in st'.live
      ensures Answers(st', t, s) && NotDropped(st, st', t, s)
    {
      ReserveAnswers(st, t, id, e, s);
      ReserveDrops(st, t, id, e, s);
    }
    forall x | x in st'.entries && st'.entries[x].owner == t
      ensures EntryOk(st', x)
    {
      if x != e {
        EntryIn(st, x);
      }
    }
    StepKeepsInv(st, st', t);
  }

  lemma AllocateFrame(st: State, t: nat, e: nat, s: nat)
    requires Inv(st) && t in st.threads && st.threads[t] == Making(e) && s !in st.live
    ensures Evolves(st, Allocate(st, t, e, s), t) && MapOk(Allocate(st, t, e, s))
  {
    var st' := Allocate(st, t, e, s);
    MapOf(st);
    forall x | x in st.live
      ensures StepOf(st.live[x].core, st'.live[x].core, t)
    {
      StepOfItself(st.live[x].core, t);
    }
  }

  lemma AllocateOthers(st: State, t: nat, e: nat, s: nat, x: nat)
    requires Inv(st) && t in st.threads && st.threads[t] == Making(e) && s !in st.live && x in st.live
    ensures Answers(Allocate(st, t, e, s), t, x) && NotDropped(st, Allocate(st, t, e, s), t, x)
  {
    LiveIn(st, x);
    NothingGranted(st, t, x, SettingUp(e, s));
  }

  lemma NewSessionOk(st: State, t: nat, e: nat, s: nat)
    requires Inv(st) && t in st.threads && st.threads[t] == Making(e) && s !in st.live
    ensures LiveOk(Allocate(st, t, e, s), s) && Answers(Allocate(st, t, e, s), t, s)
    ensures e in st.entries && st.entries[e].owner == t && Unpublished(st, e)
  {
    ThreadIn(st, t);
    EntryIn(st, e);
  }

  lemma AllocateStep(st: State, t: nat, e: nat, s: nat)
    requires Inv(st) && t in st.threads && st.threads[t] == Making(e) && s !in st.live
    ensures Steps(st, Allocate(st, t, e, s), t)
  {
    var st' := Allocate(st, t, e, s);
    AllocateFrame(st, t, e, s);
    NewSessionOk(st, t, e, s);
    forall x | x in st.live
      ensures Answers(st', t, x) && NotDropped(st, st', t, x)
    {
      AllocateOthers(st, t, e, s, x);
    }
    forall x | x in st'.entries && st'.entries[x].owner == t
      ensures EntryOk(st', x)
    {
      EntryIn(st, x);
    }
    StepKeepsInv(st, st', t);
  }

  // ---- later steps of a Create with its entry ----

  /** A Create past reservation, outside any call of `Close`. */
  predicate InCreate(th: Thread, e: nat) {
    (th.Making? || th.SettingUp? || th.Publishing? || th.Cleanup?) && th.entry == e
  }

  lemma CreatorKnows(st: State, t: nat, e: nat)
    requires Inv(st) && t in st.threads && InCreate(st.threads[t], e)
    ensures e in st.entries && st.entries[e].owner == t && Unpublished(st, e) && CreateOk(st, e, st.threads[t])
    ensures forall x :: x in st.entries && st.entries[x].owner == t ==> x == e
  {
    ThreadIn(st, t);
    EntryIn(st, e);
    forall x | x in st.entries && st.entries[x].owner == t
      ensures x == e
    {
      EntryIn(st, x);
    }
  }

  lemma CreatorDrops(st: State, t: nat, e: nat, next: Thread, s: nat)
    requires Inv(st) && t in st.threads && InCreate(st.threads[t], e) && s in st.live
    requires Pending(st.threads[t], s) ==> Pending(next, s) || Owes(next, s)
    ensures NotDropped(st, Goto(st, t, next), t, s)
  {
    CreatorKnows(st, t, e);
    LiveIn(st, s);
  }

  lemma CreatorGoto(st: State, t: nat, e: nat, next: Thread)
    requires Inv(st) && t in st.threads && InCreate(st.threads[t], e) && !st.threads[t].Cleanup?
    requires EntryOf(next) == Some(e) && ThreadOk(Goto(st, t, next), t)
    requires e in st.entries && CreateOk(Goto(st, t, next), e, next)
    requires SessionOf(st.threads[t]).Some? ==> SessionOf(next) == SessionOf(st.threads[t])
    requires forall s :: Pending(st.threads[t], s) ==> Pending(next, s) || Owes(next, s)
    ensures Steps(st, Goto(st, t, next), t)
  {
    var st' := Goto(st, t, next);
    CreatorKnows(st, t, e);
    MapOf(st);
    forall s | s in st.live
      ensures NotDropped(st, st', t, s)
    {
      CreatorDrops(st, t, e, next, s);
    }
    MoveKeeps(st, st', t);
  }

  lemma MakingFailsStep(st: State, t: nat, e: nat)
    requires Inv(st) && t in st.threads && st.threads[t] == Making(e)
    ensures Steps(st, Goto(st, t, Cleanup(e, None)), t)
  {
    CreatorKnows(st, t, e);
    CreatorGoto(st, t, e, Cleanup(e, None));
  }

  lemma SettingUpStep(st: State, t: nat, e: nat, s: nat, ok: bool)
    requires Inv(st) && t in st.threads && st.threads[t] == SettingUp(e, s)
    ensures Steps(st, Goto(st, t, if ok then Publishing(e, s) else CallClose(s, Cleanup(e, Some(s)))), t)
  {
    CreatorKnows(st, t, e);
    if ok {
      CreatorGoto(st, t, e, Publishing(e, s));
    } else {
      CreatorGoto(st, t, e, CallClose(s, Cleanup(e, Some(s))));
    }
  }

  lemma PublishFailsStep(st: State, t: nat, e: nat, s: nat)
    requires Inv(st) && t in st.threads && st.threads[t] == Publishing(e, s)
    requires !Bound(st, e)
    ensures Steps(st, Goto(st, t, CallClose(s, CreateFailed(e, Some(s)))), t)
  {
    CreatorKnows(st, t, e);
    CreatorGoto(st, t, e, CallClose(s, CreateFailed(e, Some(s))));
  }

  lemma PublishDrops(st: State, t: nat, e: nat, s: nat, x: nat)
    requires Inv(st) && t in st.threads && st.threads[t] == Publishing(e, s)
    requires Bound(st, e) && x in st.live
    ensures NotDropped(st, Publish(st, t, e, s), t, x)
  {
    CreatorKnows(st, t, e);
    LiveIn(st, x);
  }

  lemma PublishEntry(st: State, t: nat, e: nat, s: nat)
    requires Inv(st) && t in st.threads && st.threads[t] == Publishing(e, s)
    requires Bound(st, e)
    ensures var st' := Publish(st, t, e, s);
            && EntryOk(st', e) && ThreadOk(st', t) && MapMoves(st, st', t)
            && (forall x :: x in st'.entries && st'.entries[x].owner == t ==> EntryOk(st', x))
  {
    CreatorKnows(st, t, e);
    MapOf(st);
  }

  lemma PublishStep(st: State, t: nat, e: nat, s: nat)
    requires Inv(st) && t in st.threads && st.threads[t] == Publishing(e, s)
    requires Bound(st, e)
    ensures Steps(st, Publish(st, t, e, s), t)
  {
    var st' := Publish(st, t, e, s);
    PublishEntry(st, t, e, s);
    forall x | x in st.live
      ensures NotDropped(st, st', t, x)
    {
      PublishDrops(st, t, e, s, x);
    }
    MoveKeeps(st, st', t);
  }

  lemma CleanupDrops(st: State, t: nat, e: nat, closed: Option<nat>, s: nat)
    requires Inv(st) && t in st.threads && st.threads[t] == Cleanup(e, closed) && s in st.live
    ensures NotDropped(st, Unbind(st, t, RemoveEntry(st, e), CreateFailed(e, closed)), t, s)
  {
    CreatorKnows(st, t, e);
    LiveIn(st, s);
    MapOf(st);
  }

  lemma CleanupStep(st: State, t: nat, e: nat, closed: Option<nat>)
    requires Inv(st) && t in st.threads && st.threads[t] == Cleanup(e, closed)
    ensures Steps(st, Unbind(st, t, RemoveEntry(st, e), CreateFailed(e, closed)), t)
  {
    var st' := Unbind(st, t, RemoveEntry(st, e), CreateFailed(e, closed));
    CreatorKnows(st, t, e);
    MapOf(st);
    forall s | s in st.live
      ensures NotDropped(st, st', t, s)
    {
      CleanupDrops(st, t, e, closed, s);
    }
    MoveKeeps(st, st', t);
  }
}
