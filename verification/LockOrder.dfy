/**
 * The locks that every call path of the lifecycle takes, in the order it takes them. `sync.Once` counts as a lock: a
 * late caller waits on its mutex until the body is done. The critical sections that Protocol treats as one step
 * (`Manager.mu`, `recorder.mu`) are spelt out here.
 */
module LockOrder {
  import opened GoText
  import opened Sequences

  datatype Lock =
    | ManagerMu
    | StateMu(session: nat)
    | RecorderMu(session: nat)
    | CloseOnce(session: nat)
    | PrimeOnce(session: nat)

  datatype Op = Take(lock: Lock) | Give(lock: Lock)

  /** The two onces come before the mutexes, and no mutex is held while taking anything else. */
  function Level(l: Lock): nat {
    match l
    case CloseOnce(_) => 0
    case PrimeOnce(_) => 0
    case _ => 1
  }

  // ---- the call paths ----

  function Section(l: Lock): seq<Op> {
    [Take(l), Give(l)]
  }

  /** What the body of `closeOnce` takes, with or without a recorder. */
  function CloseBody(s: nat, hasRecorder: bool): seq<Op> {
    var recording := if hasRecorder then Section(RecorderMu(s)) else [];
    Section(StateMu(s)) + (Section(StateMu(s)) + (recording + Section(ManagerMu)))
  }

  /** A call of `Session.Close`, the first one or a later one. */
  function ClosePath(s: nat, first: bool, hasRecorder: bool): seq<Op> {
    [Take(CloseOnce(s))] + ((if first then CloseBody(s, hasRecorder) else []) + [Give(CloseOnce(s))])
  }

  /** A call of `audioPrimeOnce.Do`; `stillOpen` says that it runs the body. */
  function PrimePath(s: nat, stillOpen: bool): seq<Op> {
    [Take(PrimeOnce(s))] + ((if stillOpen then Section(StateMu(s)) else []) + [Give(PrimeOnce(s))])
  }

  datatype Closing = Closing(session: nat, first: bool, hasRecorder: bool)

  function Closes(closings: seq<Closing>): seq<Op> {
    if closings == [] then []
    else ClosePath(closings[0].session, closings[0].first, closings[0].hasRecorder) + Closes(closings[1..])
  }

  function Writes(s: nat, packets: nat): seq<Op> {
    if packets == 0 then [] else Section(RecorderMu(s)) + Writes(s, packets - 1)
  }

  /** Every goroutine's way through the program, as far as locks go; `closings` are the `Close` calls it makes. */
  datatype Path =
    | CreateRejected
    | CreateUnmade(closings: seq<Closing>)                     // NewSession fails, closing what it had made
    | CreateUnpublished(closings: seq<Closing>)
    | CreatePublished(session: nat, ttl: bool)
    | ManagerCloses(closings: seq<Closing>)                    // Close, CloseAll, expire
    | ManagerMarks(found: Option<nat>)
    | Track(session: nat)
    | Record(session: nat, packets: nat, closings: seq<Closing>)
    | PeerOther(session: nat)
    | PeerConnected(session: nat, primes: bool, stillOpen: bool)
    | PeerGone(session: nat)                                   // Failed or Closed; its Close is a Goroutine
    | GraceTimer(session: nat, closings: seq<Closing>)
    | Goroutine(closings: seq<Closing>)

  function PathOf(p: Path): seq<Op> {
    match p
    case CreateRejected => Section(ManagerMu)
    case CreateUnmade(cs) => Section(ManagerMu) + (Closes(cs) + Section(ManagerMu))
    case CreateUnpublished(cs) => Section(ManagerMu) + (Section(ManagerMu) + Closes(cs))
    case CreatePublished(s, ttl) =>
      Section(ManagerMu) + (Section(ManagerMu) + (if ttl then Section(StateMu(s)) else []))
    case ManagerCloses(cs) => Section(ManagerMu) + Closes(cs)
    case ManagerMarks(found) => Section(ManagerMu) + (if found.Some? then Section(StateMu(found.value)) else [])
    case Track(s) => Section(StateMu(s))
    case Record(s, packets, cs) => Writes(s, packets) + Closes(cs)
    case PeerOther(s) => Section(StateMu(s))
    case PeerConnected(s, primes, stillOpen) =>
      Section(StateMu(s)) +
      (if primes then PrimePath(s, stillOpen) else [])
    case PeerGone(s) => Section(StateMu(s)) + Section(StateMu(s))
    case GraceTimer(s, cs) => Section(StateMu(s)) + Closes(cs)
    case Goroutine(cs) => Closes(cs)
  }

  // ---- lock order ----

  /** From holding `held`, the operations take only higher locks, give back only held ones, and end with none. */
  ghost predicate Ordered(ops: seq<Op>, held: set<Lock>)
    decreases |ops|
  {
    if ops == [] then held == {}
    else
      match ops[0]
      case Take(l) => (forall h :: h in held ==> Level(h) < Level(l)) && Ordered(ops[1..], held + {l})
      case Give(l) => l in held && Ordered(ops[1..], held - {l})
  }

  /** A mutex section fits wherever no other mutex is held. */
  lemma SectionOrdered(l: Lock, rest: seq<Op>, held: set<Lock>)
    requires Level(l) == 1 && (forall h :: h in held ==> Level(h) == 0) && Ordered(rest, held)
    ensures Ordered(Section(l) + rest, held)
  {
    assert (Section(l) + rest)[1..] == [Give(l)] + rest;
    assert ([Give(l)] + rest)[1..] == rest;
    assert held + {l} - {l} == held;
  }

  lemma OnceOrdered(l: Lock, rest: seq<Op>)
    requires Level(l) == 0 && Ordered(rest, {l})
    ensures Ordered([Take(l)] + rest, {})
  {
    assert ([Take(l)] + rest)[1..] == rest;
    assert {} + {l} == {l};
  }

  lemma GiveOrdered(l: Lock, rest: seq<Op>)
    requires Ordered(rest, {})
    ensures Ordered([Give(l)] + rest, {l})
  {
    assert ([Give(l)] + rest)[1..] == rest;
    assert {l} - {l} == {};
  }

  /** The last two sections of the body. */
  lemma TerminalOrdered(s: nat, hasRecorder: bool, rest: seq<Op>)
    requires Ordered(rest, {CloseOnce(s)})
    ensures Ordered((if hasRecorder then Section(RecorderMu(s)) else []) + (Section(ManagerMu) + rest), {CloseOnce(s)})
  {
    SectionOrdered(ManagerMu, rest, {CloseOnce(s)});
    if hasRecorder {
      SectionOrdered(RecorderMu(s), Section(ManagerMu) + rest, {CloseOnce(s)});
    } else {
      assert [] + (Section(ManagerMu) + rest) == Section(ManagerMu) + rest;
    }
  }

  lemma BodyOrdered(s: nat, hasRecorder: bool, rest: seq<Op>)
    requires Ordered(rest, {CloseOnce(s)})
    ensures Ordered(CloseBody(s, hasRecorder) + rest, {CloseOnce(s)})
  {
    var recording := if hasRecorder then Section(RecorderMu(s)) else [];
    var tail := recording + (Section(ManagerMu) + rest);
    TerminalOrdered(s, hasRecorder, rest);
    SectionOrdered(StateMu(s), tail, {CloseOnce(s)});
    SectionOrdered(StateMu(s), Section(StateMu(s)) + tail, {CloseOnce(s)});
    Regroup(Section(StateMu(s)), Section(StateMu(s)) + (recording + Section(ManagerMu)), rest);
    Regroup(Section(StateMu(s)), recording + Section(ManagerMu), rest);
    Regroup(recording, Section(ManagerMu), rest);
  }

  lemma CloseOrdered(s: nat, first: bool, hasRecorder: bool, rest: seq<Op>)
    requires Ordered(rest, {})
    ensures Ordered(ClosePath(s, first, hasRecorder) + rest, {})
  {
    var tail := [Give(CloseOnce(s))] + rest;
    GiveOrdered(CloseOnce(s), rest);
    var inside := (if first then CloseBody(s, hasRecorder) else []) + tail;
    if first {
      BodyOrdered(s, hasRecorder, tail);
    } else {
      assert inside == tail;
    }
    OnceOrdered(CloseOnce(s), inside);
    var body := if first then CloseBody(s, hasRecorder) else [];
    Regroup([Take(CloseOnce(s))], body + [Give(CloseOnce(s))], rest);
    Regroup(body, [Give(CloseOnce(s))], rest);
  }

  lemma {:induction false} ClosesOrdered(closings: seq<Closing>, rest: seq<Op>)
    requires Ordered(rest, {})
    ensures Ordered(Closes(closings) + rest, {})
  {
    if closings == [] {
      assert Closes(closings) + rest == rest;
    } else {
      var c := closings[0];
      ClosesOrdered(closings[1..], rest);
      CloseOrdered(c.session, c.first, c.hasRecorder, Closes(closings[1..]) + rest);
      Regroup(ClosePath(c.session, c.first, c.hasRecorder), Closes(closings[1..]), rest);
    }
  }

  lemma {:induction false} WritesOrdered(s: nat, packets: nat, rest: seq<Op>)
    requires Ordered(rest, {})
    ensures Ordered(Writes(s, packets) + rest, {})
  {
    if packets == 0 {
      assert Writes(s, packets) + rest == rest;
    } else {
      WritesOrdered(s, packets - 1, rest);
      SectionOrdered(RecorderMu(s), Writes(s, packets - 1) + rest, {});
      assert Writes(s, packets) + rest == Section(RecorderMu(s)) + (Writes(s, packets - 1) + rest);
    }
  }

  lemma JustSection(l: Lock)
    requires Level(l) == 1
    ensures Ordered(Section(l), {})
  {
    SectionOrdered(l, [], {});
    assert Section(l) + [] == Section(l);
  }

  lemma JustCloses(closings: seq<Closing>)
    ensures Ordered(Closes(closings), {})
  {
    ClosesOrdered(closings, []);
    assert Closes(closings) + [] == Closes(closings);
  }

  lemma PrimeOrdered(s: nat, stillOpen: bool)
    ensures Ordered(PrimePath(s, stillOpen), {})
  {
    GiveOrdered(PrimeOnce(s), []);
    assert [Give(PrimeOnce(s))] + [] == [Give(PrimeOnce(s))];
    var inside := (if stillOpen then Section(StateMu(s)) else []) + [Give(PrimeOnce(s))];
    if stillOpen {
      SectionOrdered(StateMu(s), [Give(PrimeOnce(s))], {PrimeOnce(s)});
    } else {
      assert inside == [Give(PrimeOnce(s))];
    }
    OnceOrdered(PrimeOnce(s), inside);
  }

  lemma CreateOrdered(p: Path)
    requires p.CreateRejected? || p.CreateUnmade? || p.CreateUnpublished? || p.CreatePublished?
    ensures Ordered(PathOf(p), {})
  {
    match p
    case CreateRejected => JustSection(ManagerMu);
    case CreateUnmade(cs) =>
      JustSection(ManagerMu);
      ClosesOrdered(cs, Section(ManagerMu));
      SectionOrdered(ManagerMu, Closes(cs) + Section(ManagerMu), {});
    case CreateUnpublished(cs) =>
      JustCloses(cs);
      SectionOrdered(ManagerMu, Closes(cs), {});
      SectionOrdered(ManagerMu, Section(ManagerMu) + Closes(cs), {});
    case CreatePublished(s, ttl) =>
      var last := if ttl then Section(StateMu(s)) else [];
      JustSection(StateMu(s));
      SectionOrdered(ManagerMu, last, {});
      SectionOrdered(ManagerMu, Section(ManagerMu) + last, {});
    case _ =>
  }

  /** Every path through the program takes its locks in order. */
  lemma PathsOrdered(p: Path)
    ensures Ordered(PathOf(p), {})
  {
    match p
    case ManagerCloses(cs) =>
      JustCloses(cs);
      SectionOrdered(ManagerMu, Closes(cs), {});
    case ManagerMarks(found) =>
      var last := if found.Some? then Section(StateMu(found.value)) else [];
      if found.Some? {
        JustSection(StateMu(found.value));
      }
      SectionOrdered(ManagerMu, last, {});
    case Track(s) => JustSection(StateMu(s));
    case Record(s, packets, cs) =>
      JustCloses(cs);
      WritesOrdered(s, packets, Closes(cs));
    case PeerOther(s) => JustSection(StateMu(s));
    case PeerConnected(s, primes, stillOpen) =>
      var last := if primes then PrimePath(s, stillOpen) else [];
      PrimeOrdered(s, stillOpen);
      SectionOrdered(StateMu(s), last, {});
    case PeerGone(s) =>
      JustSection(StateMu(s));
      SectionOrdered(StateMu(s), Section(StateMu(s)), {});
    case GraceTimer(s, cs) =>
      JustCloses(cs);
      SectionOrdered(StateMu(s), Closes(cs), {});
    case Goroutine(cs) => JustCloses(cs);
    case _ => CreateOrdered(p);
  }

  // ---- any number of them at once ----

  datatype Runner = Runner(rest: seq<Op>, held: set<Lock>)

  type Pool = map<nat, Runner>

  ghost predicate CanStep(pool: Pool, t: nat) {
    && t in pool && pool[t].rest != []
    && (pool[t].rest[0].Take? ==> forall u :: u in pool ==> pool[t].rest[0].lock !in pool[u].held)
  }

  ghost function StepPool(pool: Pool, t: nat): Pool
    requires CanStep(pool, t)
  {
    var r := pool[t];
    pool[t := Runner(r.rest[1..], if r.rest[0].Take? then r.held + {r.rest[0].lock} else r.held - {r.rest[0].lock})]
  }

  /** A new goroutine starts on any path at any time; otherwise some goroutine makes its next step. */
  datatype Event = Start(t: nat, path: Path) | Step(t: nat)

  ghost predicate Happens(pool: Pool, event: Event, pool': Pool) {
    match event
    case Start(t, path) => t !in pool && pool' == pool[t := Runner(PathOf(path), {})]
    case Step(t) => CanStep(pool, t) && pool' == StepPool(pool, t)
  }

  ghost predicate PoolRun(pools: seq<Pool>, events: seq<Event>) {
    && |pools| == |events| + 1 && pools[0] == map[]
    && forall i :: 0 <= i < |events| ==> Happens(pools[i], events[i], pools[i + 1])
  }

  ghost predicate PoolOk(pool: Pool) {
    && (forall t :: t in pool ==> Ordered(pool[t].rest, pool[t].held))
    && (forall t, u :: t in pool && u in pool && t != u ==> pool[t].held !! pool[u].held)
  }

  lemma HappensKeeps(pool: Pool, event: Event, pool': Pool)
    requires PoolOk(pool) && Happens(pool, event, pool')
    ensures PoolOk(pool')
  {
    if event.Start? {
      PathsOrdered(event.path);
    }
  }

  lemma {:induction false} RunKeeps(pools: seq<Pool>, events: seq<Event>, n: nat)
    requires PoolRun(pools, events) && n < |pools|
    ensures PoolOk(pools[n])
  {
    if n > 0 {
      RunKeeps(pools, events, n - 1);
      HappensKeeps(pools[n - 1], events[n - 1], pools[n]);
    }
  }

  /** Following who waits for whom goes up the lock order, so it ends at one that can move. */
  lemma {:induction false} SomeoneSteps(pool: Pool, t: nat) returns (u: nat)
    requires PoolOk(pool) && t in pool && pool[t].rest != []
    ensures CanStep(pool, u)
    decreases if pool[t].rest[0].Take? then 2 - Level(pool[t].rest[0].lock) else 0
  {
    if CanStep(pool, t) {
      u := t;
    } else {
      var l := pool[t].rest[0].lock;
      var holder :| holder in pool && l in pool[holder].held;
      assert Ordered(pool[holder].rest, pool[holder].held);
      u := SomeoneSteps(pool, holder);
    }
  }

  /** No deadlock over any run: while some goroutine is not at its end, one of them can make its next step. */
  lemma NoLockCycle(pools: seq<Pool>, events: seq<Event>, n: nat, t: nat)
    requires PoolRun(pools, events) && n < |pools|
    requires t in pools[n] && pools[n][t].rest != []
    ensures exists u :: CanStep(pools[n], u)
  {
    RunKeeps(pools, events, n);
    var u := SomeoneSteps(pools[n], t);
  }

  /**
   * A holder of a mutex, `Manager.mu` among them, gives it back before it takes anything: nobody else has it
   * meanwhile.
   */
  lemma MutexesAreLast(pools: seq<Pool>, events: seq<Event>, n: nat, t: nat)
    requires PoolRun(pools, events) && n < |pools| && t in pools[n]
    requires exists h :: h in pools[n][t].held && Level(h) == 1
    ensures pools[n][t].rest != [] && pools[n][t].rest[0].Give?
    ensures forall u :: u in pools[n] && u != t ==> pools[n][t].held !! pools[n][u].held
  {
    RunKeeps(pools, events, n);
    assert Ordered(pools[n][t].rest, pools[n][t].held);
  }
}
