/** Whole operations of the manager without interference, from the call to the return: each is a run of the protocol. */
module ProtocolOperations {
  import opened GoText
  import opened SessionSteps
  import opened SessionSequences
  import opened Protocol
  import opened ProtocolAlone
  import opened ProtocolCalls

  lemma {:induction false} RunThen(st: State, first: seq<Action>, mid: State, second: seq<Action>, end: State)
    requires Reaches(st, first, mid) && Reaches(mid, second, end)
    ensures Reaches(st, first + second, end)
    decreases |first|
  {
    if first == [] {
      assert first + second == second;
    } else {
      RunThen(Apply(st, first[0]), first[1..], mid, second, end);
      assert first + second == [first[0]] + (first[1..] + second);
      RunFirst(st, first[0], first[1..] + second, end);
    }
  }

  function Chosen(ok: bool, pick: nat): Choice {
    Choice(ok, false, pick, [])
  }

  // ---- Create ----

  /** A state of `Create` on its way: its binding, its entry, the sessions so far, and where it is. */
  function Creating(st: State, t: nat, id: string, e: nat, session: Option<nat>, live: map<nat, Live>,
      th: Thread): State
  {
    State(st.sessions[id := e], st.entries[e := Entry(id, t, session)], live, st.threads[t := th], st.ttl)
  }

  lemma CreateReserves(st: State, t: nat, id: string, e: nat)
    requires t !in st.threads && id !in st.sessions && e !in st.entries
    ensures Reaches(st, [Spawn(t, CreateStart(id)), Run(t, Chosen(true, e))],
              Creating(st, t, id, e, None, st.live, Making(e)))
  {
    var spawned := Goto(st, t, CreateStart(id));
    var end := Creating(st, t, id, e, None, st.live, Making(e));
    assert st.threads[t := CreateStart(id)][t := Making(e)] == st.threads[t := Making(e)];
    assert RunStep(spawned, t, Chosen(true, e)) == end;
    OneStep(spawned, t, Chosen(true, e), end);
    RunFirst(st, Spawn(t, CreateStart(id)), [Run(t, Chosen(true, e))], end);
    assert [Spawn(t, CreateStart(id))] + [Run(t, Chosen(true, e))] ==
           [Spawn(t, CreateStart(id)), Run(t, Chosen(true, e))];
  }

  lemma CreatingTwice(st: State, t: nat, id: string, e: nat, session: Option<nat>, live: map<nat, Live>, th: Thread,
      session': Option<nat>, live': map<nat, Live>, th': Thread)
    ensures Creating(Creating(st, t, id, e, session, live, th), t, id, e, session', live', th') ==
            Creating(st, t, id, e, session', live', th')
  {
    assert st.threads[t := th][t := th'] == st.threads[t := th'];
    assert st.sessions[id := e][id := e] == st.sessions[id := e];
    assert st.entries[e := Entry(id, t, session)][e := Entry(id, t, session')] == st.entries[e := Entry(id, t,
        session')];
  }

  /** One step of `Create` on the way. */
  lemma CreateNext(st: State, t: nat, id: string, e: nat, session: Option<nat>, live: map<nat, Live>, th: Thread,
      c: Choice, session': Option<nat>, live': map<nat, Live>, th': Thread)
    requires var at := Creating(st, t, id, e, session, live, th);
             RunEnabled(at, t, c) && RunStep(at, t, c) == Creating(at, t, id, e, session', live', th')
    ensures Reaches(Creating(st, t, id, e, session, live, th), [Run(t, c)],
              Creating(st, t, id, e, session', live', th'))
  {
    CreatingTwice(st, t, id, e, session, live, th, session', live', th');
    OneStep(Creating(st, t, id, e, session, live, th), t, c, Creating(st, t, id, e, session', live', th'));
  }

  /** `NewSession` makes session s. */
  function Made(st: State, e: nat, s: nat, core: Session): map<nat, Live> {
    st.live[s := Live(e, core)]
  }

  lemma CreateAllocates(st: State, t: nat, id: string, e: nat, s: nat)
    requires s !in st.live
    ensures Reaches(Creating(st, t, id, e, None, st.live, Making(e)), [Run(t, Chosen(true, s))],
              Creating(st, t, id, e, None, Made(st, e, s, NEW_SESSION), SettingUp(e, s)))
  {
    CreateNext(st, t, id, e, None, st.live, Making(e), Chosen(true, s), None, Made(st, e, s, NEW_SESSION),
        SettingUp(e, s));
  }

  lemma CreateSetsUp(st: State, t: nat, id: string, e: nat, s: nat)
    ensures Reaches(Creating(st, t, id, e, None, Made(st, e, s, NEW_SESSION), SettingUp(e, s)), [Run(t, ANY)],
              Creating(st, t, id, e, None, Made(st, e, s, NEW_SESSION), Publishing(e, s)))
  {
    CreateNext(st, t, id, e, None, Made(st, e, s, NEW_SESSION), SettingUp(e, s), ANY, None,
        Made(st, e, s, NEW_SESSION), Publishing(e, s));
  }

  lemma CreatePublishes(st: State, t: nat, id: string, e: nat, s: nat)
    ensures Reaches(Creating(st, t, id, e, None, Made(st, e, s, NEW_SESSION), Publishing(e, s)), [Run(t, ANY)],
              Creating(st, t, id, e, Some(s), Made(st, e, s, NEW_SESSION),
                       if st.ttl then ArmingTtl(e, s) else Created(e, s)))
  {
    CreateNext(st, t, id, e, None, Made(st, e, s, NEW_SESSION), Publishing(e, s), ANY, Some(s),
        Made(st, e, s, NEW_SESSION), if st.ttl then ArmingTtl(e, s) else Created(e, s));
  }

  lemma CreatingInside(st: State, t: nat, id: string, e: nat, s: nat, core: Session, th: Thread, core': Session,
      th': Thread)
    ensures var at := Creating(st, t, id, e, Some(s), Made(st, e, s, core), th);
            && s in at.live
            && Inside(at, t, s, core', th') == Creating(st, t, id, e, Some(s), Made(st, e, s, core'), th')
  {
    assert Made(st, e, s, core)[s := Live(e, core')] == Made(st, e, s, core');
    assert st.threads[t := th][t := th'] == st.threads[t := th'];
  }

  /** One of the steps that start and store the expiry timer. */
  lemma CreateTtlStep(st: State, t: nat, id: string, e: nat, s: nat, core: Session, th: Thread, core': Session,
      th': Thread)
    requires var at := Creating(st, t, id, e, Some(s), Made(st, e, s, core), th);
             s in at.live && RunEnabled(at, t, ANY) && RunStep(at, t, ANY) == Inside(at, t, s, core', th')
    ensures Reaches(Creating(st, t, id, e, Some(s), Made(st, e, s, core), th), [Run(t, ANY)],
              Creating(st, t, id, e, Some(s), Made(st, e, s, core'), th'))
  {
    CreatingInside(st, t, id, e, s, core, th, core', th');
    OneStep(Creating(st, t, id, e, Some(s), Made(st, e, s, core), th), t, ANY,
        Creating(st, t, id, e, Some(s), Made(st, e, s, core'), th'));
  }

  lemma CreateStoresTtl(st: State, t: nat, id: string, e: nat, s: nat)
    ensures Reaches(Creating(st, t, id, e, Some(s), Made(st, e, s, ArmExpiry(NEW_SESSION)), SettingTtl(e, s)),
              [Run(t, ANY)] + [Run(t, ANY)],
              Creating(st, t, id, e, Some(s), Made(st, e, s, Answer(true)), Created(e, s)))
  {
    var armed := ArmExpiry(NEW_SESSION);
    var locked := LockExpiry(armed, t);
    CreateTtlStep(st, t, id, e, s, armed, SettingTtl(e, s), locked, StoringTtl(e, s));
    CreateTtlStep(st, t, id, e, s, locked, StoringTtl(e, s), FinishExpiry(locked), Created(e, s));
    assert FinishExpiry(locked) == Answer(true);
    RunThen(Creating(st, t, id, e, Some(s), Made(st, e, s, armed), SettingTtl(e, s)), [Run(t, ANY)],
        Creating(st, t, id, e, Some(s), Made(st, e, s, locked), StoringTtl(e, s)), [Run(t, ANY)],
        Creating(st, t, id, e, Some(s), Made(st, e, s, Answer(true)), Created(e, s)));
  }

  lemma CreateTtl(st: State, t: nat, id: string, e: nat, s: nat)
    ensures Reaches(Creating(st, t, id, e, Some(s), Made(st, e, s, NEW_SESSION), ArmingTtl(e, s)),
              [Run(t, ANY)] + ([Run(t, ANY)] + [Run(t, ANY)]),
              Creating(st, t, id, e, Some(s), Made(st, e, s, Answer(true)), Created(e, s)))
  {
    var armed := ArmExpiry(NEW_SESSION);
    CreateTtlStep(st, t, id, e, s, NEW_SESSION, ArmingTtl(e, s), armed, SettingTtl(e, s));
    CreateStoresTtl(st, t, id, e, s);
    RunThen(Creating(st, t, id, e, Some(s), Made(st, e, s, NEW_SESSION), ArmingTtl(e, s)), [Run(t, ANY)],
        Creating(st, t, id, e, Some(s), Made(st, e, s, armed), SettingTtl(e, s)), [Run(t, ANY)] + [Run(t, ANY)],
        Creating(st, t, id, e, Some(s), Made(st, e, s, Answer(true)), Created(e, s)));
  }

  /** What a new session is when its `Create` returns: with a TTL its timer runs and is stored. */
  function Answer(ttl: bool): Session {
    if ttl then NEW_SESSION.(expiryArmed := true, expiryStored := true) else NEW_SESSION
  }

  lemma CreateToPublished(st: State, t: nat, id: string, e: nat, s: nat) returns (actions: seq<Action>)
    requires t !in st.threads && id !in st.sessions && e !in st.entries && s !in st.live
    ensures Reaches(st, actions, Creating(st, t, id, e, Some(s), Made(st, e, s, NEW_SESSION),
                                          if st.ttl then ArmingTtl(e, s) else Created(e, s)))
  {
    var live := Made(st, e, s, NEW_SESSION);
    var making, setting := Creating(st, t, id, e, None, st.live, Making(e)),
                           Creating(st, t, id, e, None, live, SettingUp(e, s));
    var publishing := Creating(st, t, id, e, None, live, Publishing(e, s));
    var published :=
      Creating(st, t, id, e, Some(s), live, if st.ttl then ArmingTtl(e, s) else Created(e, s));
    var reserve := [Spawn(t, CreateStart(id)), Run(t, Chosen(true, e))];
    CreateReserves(st, t, id, e);
    CreateAllocates(st, t, id, e, s);
    CreateSetsUp(st, t, id, e, s);
    CreatePublishes(st, t, id, e, s);
    RunThen(setting, [Run(t, ANY)], publishing, [Run(t, ANY)], published);
    RunThen(making, [Run(t, Chosen(true, s))], setting, [Run(t, ANY)] + [Run(t, ANY)], published);
    actions := reserve + ([Run(t, Chosen(true, s))] + ([Run(t, ANY)] + [Run(t, ANY)]));
    RunThen(st, reserve, making, [Run(t, Chosen(true, s))] + ([Run(t, ANY)] + [Run(t, ANY)]), published);
  }

  /**
   * `Create` of a free id, when `NewSession` succeeds: it answers, with its own new session published under exactly
   * that id and, with a TTL, its timer running; nothing else has changed.
   */
  lemma CreateAlone(st: State, t: nat, id: string, e: nat, s: nat) returns (actions: seq<Action>)
    requires t !in st.threads && id !in st.sessions && e !in st.entries && s !in st.live
    ensures Reaches(st, actions, State(
              st.sessions[id := e], st.entries[e := Entry(id, t, Some(s))], st.live[s := Live(e, Answer(st.ttl))],
              st.threads[t := Created(e, s)], st.ttl))
  {
    actions := CreateToPublished(st, t, id, e, s);
    if st.ttl {
      var rest := [Run(t, ANY)] + ([Run(t, ANY)] + [Run(t, ANY)]);
      CreateTtl(st, t, id, e, s);
      RunThen(st, actions, Creating(st, t, id, e, Some(s), Made(st, e, s, NEW_SESSION), ArmingTtl(e, s)), rest,
          Creating(st, t, id, e, Some(s), Made(st, e, s, Answer(true)), Created(e, s)));
      actions := actions + rest;
    }
  }

  /** `Create` of an id in use is refused, whatever its entry holds, and changes nothing. */
  lemma CreateRefused(st: State, t: nat, id: string, c: Choice)
    requires t !in st.threads && id in st.sessions
    ensures Reaches(st, [Spawn(t, CreateStart(id))] + [Run(t, c)], Goto(st, t, Rejected))
  {
    var spawned := Goto(st, t, CreateStart(id));
    assert st.threads[t := CreateStart(id)][t := Rejected] == st.threads[t := Rejected];
    OneStep(spawned, t, c, Goto(st, t, Rejected));
    RunFirst(st, Spawn(t, CreateStart(id)), [Run(t, c)], Goto(st, t, Rejected));
  }

  // ---- a Create that fails ----

  lemma CleanupAlone(st: State, t: nat, id: string, e: nat, live: map<nat, Live>, closed: Option<nat>,
      sessions: map<string, nat>)
    requires id !in st.sessions && (sessions == st.sessions[id := e] || sessions == st.sessions)
    ensures Reaches(Creating(st, t, id, e, None, live, Cleanup(e, closed)).(sessions := sessions), [Run(t, ANY)],
              Creating(st, t, id, e, None, live, CreateFailed(e, closed)).(sessions := st.sessions))
  {
    var at := Creating(st, t, id, e, None, live, Cleanup(e, closed)).(sessions := sessions);
    var end := Creating(st, t, id, e, None, live, CreateFailed(e, closed)).(sessions := st.sessions);
    assert RemoveEntry(at, e) == st.sessions;
    assert at.threads[t := CreateFailed(e, closed)] == end.threads;
    OneStep(at, t, ANY, end);
  }

  lemma MakingFails(st: State, t: nat, id: string, e: nat)
    requires id !in st.sessions
    ensures Reaches(Creating(st, t, id, e, None, st.live, Making(e)), [Run(t, Chosen(false, 0))],
              Creating(st, t, id, e, None, st.live, Cleanup(e, None)))
  {
    CreateNext(st, t, id, e, None, st.live, Making(e), Chosen(false, 0), None, st.live, Cleanup(e, None));
  }

  /** `Create` when `NewSession` makes no session: it fails, and the id is as free as it was. */
  lemma CreateFailsAlone(st: State, t: nat, id: string, e: nat) returns (actions: seq<Action>)
    requires t !in st.threads && id !in st.sessions && e !in st.entries
    ensures Reaches(st, actions, State(
              st.sessions, st.entries[e := Entry(id, t, None)], st.live, st.threads[t := CreateFailed(e, None)],
                  st.ttl))
  {
    var making := Creating(st, t, id, e, None, st.live, Making(e));
    var cleanup := Creating(st, t, id, e, None, st.live, Cleanup(e, None));
    var end := Creating(st, t, id, e, None, st.live, CreateFailed(e, None)).(sessions := st.sessions);
    CreateReserves(st, t, id, e);
    MakingFails(st, t, id, e);
    CleanupAlone(st, t, id, e, st.live, None, st.sessions[id := e]);
    var reserve, fail, remove := [Spawn(t, CreateStart(id)), Run(t, Chosen(true, e))], [Run(t, Chosen(false, 0))],
                                 [Run(t, ANY)];
    RunThen(making, fail, cleanup, remove, end);
    RunThen(st, reserve, making, fail + remove, end);
    actions := reserve + (fail + remove);
  }

  lemma NewIsIdle()
    ensures Idle(NEW_SESSION) && NEW_SESSION.closeOnce.Fresh?
  {
  }

  lemma SetupClosed(st: State, t: nat, id: string, e: nat, s: nat, next: Thread)
    requires id !in st.sessions
    ensures var at := Creating(st, t, id, e, None, Made(st, e, s, NEW_SESSION), CallClose(s, next));
            && s in at.live
            && After(at, t, s, next, Closed(NEW_SESSION), RemoveEntry(at, e)) ==
               Creating(st, t, id, e, None, Made(st, e, s, Closed(NEW_SESSION)), next).(sessions := st.sessions)
  {
    var at := Creating(st, t, id, e, None, Made(st, e, s, NEW_SESSION), CallClose(s, next));
    assert RemoveEntry(at, e) == st.sessions;
    assert at.threads[t := next] == st.threads[t := next];
    assert at.live[s := Live(e, Closed(NEW_SESSION))] == Made(st, e, s, Closed(NEW_SESSION));
  }

  lemma SetupCloses(st: State, t: nat, id: string, e: nat, s: nat) returns (actions: seq<Action>)
    requires id !in st.sessions
    ensures Reaches(Creating(st, t, id, e, None, Made(st, e, s, NEW_SESSION), CallClose(s, Cleanup(e, Some(s)))),
              actions,
              Creating(st, t, id, e, None, Made(st, e, s, Closed(NEW_SESSION)), Cleanup(e, Some(s)))
              .(sessions := st.sessions))
  {
    var next := Cleanup(e, Some(s));
    NewIsIdle();
    SetupClosed(st, t, id, e, s, next);
    actions := CloseAlone(Creating(st, t, id, e, None, Made(st, e, s, NEW_SESSION), CallClose(s, next)), t, s, next);
  }

  lemma SetupFails(st: State, t: nat, id: string, e: nat, s: nat, live: map<nat, Live>)
    requires live == Made(st, e, s, NEW_SESSION)
    ensures Reaches(Creating(st, t, id, e, None, live, SettingUp(e, s)), [Run(t, Chosen(false, 0))],
              Creating(st, t, id, e, None, live, CallClose(s, Cleanup(e, Some(s)))))
  {
    CreateNext(st, t, id, e, None, live, SettingUp(e, s), Chosen(false, 0), None, live,
        CallClose(s, Cleanup(e, Some(s))));
  }

  lemma SettingFails(st: State, t: nat, id: string, e: nat, s: nat) returns (actions: seq<Action>)
    requires id !in st.sessions
    ensures Reaches(Creating(st, t, id, e, None, Made(st, e, s, NEW_SESSION), SettingUp(e, s)), actions,
              Creating(st, t, id, e, None, Made(st, e, s, Closed(NEW_SESSION)), CreateFailed(e, Some(s)))
              .(sessions := st.sessions))
  {
    var live, closed := Made(st, e, s, NEW_SESSION), Made(st, e, s, Closed(NEW_SESSION));
    var setting := Creating(st, t, id, e, None, live, SettingUp(e, s));
    var closing := Creating(st, t, id, e, None, live, CallClose(s, Cleanup(e, Some(s))));
    var cleanup := Creating(st, t, id, e, None, closed, Cleanup(e, Some(s))).(sessions := st.sessions);
    var end := Creating(st, t, id, e, None, closed, CreateFailed(e, Some(s))).(sessions := st.sessions);
    SetupFails(st, t, id, e, s, live);
    var close := SetupCloses(st, t, id, e, s);
    CleanupAlone(st, t, id, e, closed, Some(s), st.sessions);
    var fail, remove := [Run(t, Chosen(false, 0))], [Run(t, ANY)];
    RunThen(closing, close, cleanup, remove, end);
    RunThen(setting, fail, closing, close + remove, end);
    actions := fail + (close + remove);
  }

  /** `Create` when the set-up of its session fails: it fails too, the session is closed, and the id is free. */
  lemma SetupFailsAlone(st: State, t: nat, id: string, e: nat, s: nat) returns (actions: seq<Action>)
    requires t !in st.threads && id !in st.sessions && e !in st.entries && s !in st.live
    ensures Reaches(st, actions, State(
              st.sessions, st.entries[e := Entry(id, t, None)], st.live[s := Live(e, Closed(NEW_SESSION))],
              st.threads[t := CreateFailed(e, Some(s))], st.ttl))
  {
    var making := Creating(st, t, id, e, None, st.live, Making(e));
    var setting := Creating(st, t, id, e, None, Made(st, e, s, NEW_SESSION), SettingUp(e, s));
    var end :=
      Creating(st, t, id, e, None, Made(st, e, s, Closed(NEW_SESSION)), CreateFailed(e, Some(s)))
      .(sessions := st.sessions);
    CreateReserves(st, t, id, e);
    CreateAllocates(st, t, id, e, s);
    var rest := SettingFails(st, t, id, e, s);
    var reserve, make := [Spawn(t, CreateStart(id)), Run(t, Chosen(true, e))], [Run(t, Chosen(true, s))];
    RunThen(making, make, setting, rest, end);
    RunThen(st, reserve, making, make + rest, end);
    actions := reserve + (make + rest);
  }

  // ---- CloseAll ----

  /** `CloseAll` takes the whole map at once and goes on to close what was published in it, in any order. */
  lemma CloseAllBegins(st: State, t: nat, order: seq<nat>)
    requires t !in st.threads && Enumerates(order, PublishedSessions(st))
    ensures Reaches(st, [Spawn(t, ClosingAll)] + [Run(t, Choice(true, false, 0, order))],
              st.(sessions := map[], threads := st.threads[t := CloseLoop(order, PublishedSessions(st))]))
  {
    var c, spawned := Choice(true, false, 0, order), Goto(st, t, ClosingAll);
    var end := st.(sessions := map[], threads := st.threads[t := CloseLoop(order, PublishedSessions(st))]);
    assert spawned.threads[t := CloseLoop(order, PublishedSessions(st))] == end.threads;
    SamePublished(st, spawned);
    OneStep(spawned, t, c, end);
    RunFirst(st, Spawn(t, ClosingAll), [Run(t, c)], end);
  }

  lemma SamePublished(st: State, st': State)
    requires st'.sessions == st.sessions && st'.entries == st.entries
    ensures PublishedSessions(st') == PublishedSessions(st)
  {
    assert forall id :: Published(st', id) == Published(st, id);
  }
}
