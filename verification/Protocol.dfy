/**
 * The session lifecycle: any number of `Create`, `Close`, `CloseAll`, timer and peer-callback threads over one
 * manager. Every critical section is one step; a session is closed by many callers through `closeOnce`.
 */
module Protocol {
  import opened GoText
  import opened SessionSteps

  /** A `sessionEntry`; `id` and `owner` (the Create that allocated it) are history. */
  datatype Entry = Entry(id: string, owner: nat, session: Option<nat>)

  /** A `Session`; `entry` is what its terminal callback captured. */
  datatype Live = Live(entry: nat, core: Session)

  /** Where a thread is. `CallClose(s, next)` is a call of session s's `Close` that returns to `next`. */
  datatype Thread =
    // Manager.Create
    | CreateStart(id: string)
    | Making(entry: nat)
    | SettingUp(entry: nat, session: nat)
    | Cleanup(entry: nat, closed: Option<nat>)
    | Publishing(entry: nat, session: nat)
    | ArmingTtl(entry: nat, session: nat)
    | SettingTtl(entry: nat, session: nat)
    | StoringTtl(entry: nat, session: nat)
    | Created(entry: nat, session: nat)
    | Rejected
    | CreateFailed(entry: nat, closed: Option<nat>)
    // Manager.expire, Manager.Close, Manager.CloseAll, Manager.MarkConnected
    | Expiring(id: string, session: nat)
    | ClosingId(id: string)
    | ClosingAll
    | CloseLoop(todo: seq<nat>, targets: set<nat>)
    | MarkingId(id: string)
    | Marking(session: nat)
    // Session.Close
    | CallClose(session: nat, next: Thread)
    // OnTrack and recordTrack
    | TrackStart(session: nat)
    | TrackLocked(session: nat)
    | Recording(session: nat)
    // OnConnectionStateChange
    | PeerStart(session: nat, state: PeerState)
    | PeerLocked(session: nat, generation: nat)
    | PeerAfter(session: nat, state: PeerState)
    | PeerStopping(session: nat)
    | PrimeStart(session: nat)
    | PrimeWaiting(session: nat)
    | PrimeInside(session: nat)
    | PrimeLocked(session: nat)
    | PrimeStarting(session: nat)
    | PrimeLeaving(session: nat)
    // runAudioPrime: the loop head, the select, after a tick, before a write
    | PrimeTop(session: nat)
    | PrimeSelect(session: nat)
    | PrimeTicked(session: nat)
    | PrimeWriting(session: nat)
    // the grace timer
    | GraceFired(session: nat, generation: nat)
    | Ended

  datatype State = State(
    sessions: map<string, nat>,
    entries: map<nat, Entry>,
    live: map<nat, Live>,
    threads: map<nat, Thread>,
    ttl: bool)

  /** What the environment decides: whether foreign calls succeed, a fresh object, the iteration order of a map. */
  datatype Choice = Choice(ok: bool, more: bool, pick: nat, order: seq<nat>)

  datatype Action =
    | Spawn(t: nat, thread: Thread)
    | ExpiryFires(t: nat, session: nat)
    | GraceFires(t: nat, session: nat, generation: nat)
    | RunnerBegins(t: nat, session: nat)
    | Run(t: nat, choice: Choice)

  function Initial(ttl: bool): State {
    State(map[], map[], map[], map[], ttl)
  }

  /** The entry is in the manager's map under its own id. */
  predicate Bound(st: State, e: nat) {
    e in st.entries && st.entries[e].id in st.sessions && st.sessions[st.entries[e].id] == e
  }

  /** The session published in the map under `id`. */
  function Published(st: State, id: string): Option<nat> {
    if id in st.sessions && st.sessions[id] in st.entries then st.entries[st.sessions[id]].session else None
  }

  function Without(sessions: map<string, nat>, id: string): map<string, nat> {
    map i | i in sessions && i != id :: sessions[i]
  }

  lemma WithoutOthers(sessions: map<string, nat>, id: string)
    ensures forall i :: i in sessions && i != id ==>
              i in Without(sessions, id) && Without(sessions, id)[i] == sessions[i]
  {
  }

  /** `removeEntry` on the map: the pointer comparison protects a later entry under the same id. */
  function RemoveBinding(sessions: map<string, nat>, id: string, e: nat): map<string, nat> {
    if id in sessions && sessions[id] == e then Without(sessions, id) else sessions
  }

  function RemoveEntry(st: State, e: nat): map<string, nat> {
    if e in st.entries then RemoveBinding(st.sessions, st.entries[e].id, e) else st.sessions
  }

  function PublishedSessions(st: State): set<nat> {
    set id | id in st.sessions && Published(st, id).Some? :: Published(st, id).value
  }

  // ---- threads the environment may start ----

  predicate Spawnable(st: State, thread: Thread) {
    || thread.CreateStart? || thread.ClosingId? || thread.ClosingAll? || thread.MarkingId?
    || ((thread.TrackStart? || thread.PeerStart?) && thread.session in st.live)
  }

  // ---- the steps ----

  function Goto(st: State, t: nat, next: Thread): State {
    st.(threads := st.threads[t := next])
  }

  /** A step inside one session. */
  function Inside(st: State, t: nat, s: nat, core: Session, next: Thread): State
    requires s in st.live
  {
    st.(live := st.live[s := st.live[s].(core := core)], threads := st.threads[t := next])
  }

  /** A step that takes bindings out of the map. */
  function Unbind(st: State, t: nat, sessions: map<string, nat>, next: Thread): State {
    st.(sessions := sessions, threads := st.threads[t := next])
  }

  function Reserve(st: State, t: nat, id: string, e: nat): State {
    st.(sessions := st.sessions[id := e], entries := st.entries[e := Entry(id, t, None)],
        threads := st.threads[t := Making(e)])
  }

  function Allocate(st: State, t: nat, e: nat, s: nat): State {
    st.(live := st.live[s := Live(e, NEW_SESSION)], threads := st.threads[t := SettingUp(e, s)])
  }

  function Publish(st: State, t: nat, e: nat, s: nat): State
    requires e in st.entries
  {
    st.(entries := st.entries[e := st.entries[e].(session := Some(s))],
        threads := st.threads[t := if st.ttl then ArmingTtl(e, s) else Created(e, s)])
  }

  // ---- Session.Close ----

  /** A caller waits only for the running body, and the body only for `stateMu`. */
  predicate CloseEnabled(core: Session, t: nat) {
    || core.closeOnce.Fresh?
    || core.closeOnce.Finished?
    || (core.closeOnce == Running(t) && ((core.phase.Cancelled? || core.phase.PrimeStopped?) ==> core.mu.Free?))
  }

  function StepClose(st: State, t: nat, s: nat, next: Thread): State
    requires s in st.live && CloseEnabled(st.live[s].core, t)
  {
    var core := st.live[s].core;
    var stay := CallClose(s, next);
    if core.closeOnce.Fresh? then Inside(st, t, s, EnterClose(core, t), stay)
    else if core.closeOnce.Finished? then Goto(st, t, next)
    else
      // The terminal callback of the manager takes the session's entry out of the map.
      Inside(st, t, s, BodyNext(core), if core.phase.Terminal? then next else stay)
      .(sessions := if core.phase.PeerDone? then RemoveEntry(st, st.live[s].entry) else st.sessions)
  }

  // ---- one step of a thread ----

  predicate RunEnabled(st: State, t: nat, c: Choice) {
    t in st.threads &&
    match st.threads[t]
    case CreateStart(id) => id in st.sessions || c.pick !in st.entries
    case Making(e) => e in st.entries && (c.ok ==> c.pick !in st.live)
    case Cleanup(e, _) => e in st.entries
    case Publishing(e, s) => e in st.entries && s in st.live
    case CloseLoop(_, _) => true
    case SettingUp(_, _) => true
    case ArmingTtl(_, s) => s in st.live
    case SettingTtl(_, s) => s in st.live && st.live[s].core.mu.Free?
    case StoringTtl(_, s) => s in st.live
    case Expiring(_, s) => true
    case ClosingId(_) => true
    case ClosingAll => Enumerates(c.order, PublishedSessions(st))
    case MarkingId(_) => true
    case Marking(s) => s in st.live && st.live[s].core.mu.Free?
    case CallClose(s, _) => s in st.live && CloseEnabled(st.live[s].core, t)
    case TrackStart(s) => s in st.live && st.live[s].core.mu.Free?
    case TrackLocked(s) => s in st.live
    case Recording(s) => s in st.live
    case PeerStart(s, _) => s in st.live && st.live[s].core.mu.Free?
    case PeerLocked(s, _) => s in st.live
    case PeerAfter(s, state) =>
      s in st.live && (state == Failed || state == PeerClosed ==> st.live[s].core.mu.Free?)
    case PrimeStart(s) => s in st.live
    case PrimeWaiting(s) => s in st.live && !st.live[s].core.primeOnce.Running?
    case PrimeInside(s) => s in st.live && st.live[s].core.mu.Free?
    case PeerStopping(s) => s in st.live
    case PrimeLocked(s) => s in st.live
    case PrimeStarting(s) => s in st.live
    case PrimeLeaving(s) => s in st.live
    case PrimeTop(s) => s in st.live
    case PrimeSelect(s) => s in st.live && (c.ok || PrimeDone(st.live[s].core))
    case PrimeTicked(s) => s in st.live
    case PrimeWriting(s) => s in st.live
    case GraceFired(s, _) => s in st.live && st.live[s].core.mu.Free?
    case Created(_, _) => false
    case Rejected => false
    case CreateFailed(_, _) => false
    case Ended => false
  }

  /** The order in which `CloseAll` met the sessions: any enumeration. */
  predicate Enumerates(order: seq<nat>, members: set<nat>) {
    && (forall s :: s in members ==> s in order)
    && (forall i :: 0 <= i < |order| ==> order[i] in members)
    && (forall i, j :: 0 <= i < j < |order| ==> order[i] != order[j])
  }

  function RunStep(st: State, t: nat, c: Choice): State
    requires RunEnabled(st, t, c)
  {
    match st.threads[t]
    case CreateStart(id) => if id in st.sessions then Goto(st, t, Rejected) else Reserve(st, t, id, c.pick)
    case Making(e) => if c.ok then Allocate(st, t, e, c.pick) else Goto(st, t, Cleanup(e, None))
    case SettingUp(e, s) => Goto(st, t, if c.ok then Publishing(e, s) else CallClose(s, Cleanup(e, Some(s))))
    case Cleanup(e, closed) => Unbind(st, t, RemoveEntry(st, e), CreateFailed(e, closed))
    case Publishing(e, s) =>
      if Bound(st, e) then Publish(st, t, e, s) else Goto(st, t, CallClose(s, CreateFailed(e, Some(s))))
    case ArmingTtl(e, s) => Inside(st, t, s, ArmExpiry(st.live[s].core), SettingTtl(e, s))
    case SettingTtl(e, s) =>
      var core := st.live[s].core;
      Inside(st, t, s, LockExpiry(core, t), if core.cancelled then Created(e, s) else StoringTtl(e, s))
    case StoringTtl(e, s) => Inside(st, t, s, FinishExpiry(st.live[s].core), Created(e, s))
    case Expiring(id, s) =>
      if Published(st, id) == Some(s) then Unbind(st, t, Without(st.sessions, id), CallClose(s, Ended))
      else Goto(st, t, Ended)
    case ClosingId(id) =>
      Unbind(st, t, Without(st.sessions, id),
             if Published(st, id).Some? then CallClose(Published(st, id).value, Ended) else Ended)
    case ClosingAll => Unbind(st, t, map[], CloseLoop(c.order, PublishedSessions(st)))
    case CloseLoop(todo, targets) =>
      Goto(st, t, if todo == [] then Ended else CallClose(todo[0], CloseLoop(todo[1..], targets)))
    case MarkingId(id) => Goto(st, t, if Published(st, id).Some? then Marking(Published(st, id).value) else Ended)
    case Marking(s) => Inside(st, t, s, MarkConnected(st.live[s].core), Ended)
    case CallClose(s, next) => StepClose(st, t, s, next)
    case TrackStart(s) =>
      var core := st.live[s].core;
      Inside(st, t, s, LockTrack(core, t), if core.audioClaimed || core.cancelled then Ended else TrackLocked(s))
    // A failed creation starts `go s.Close()`: the new goroutine goes on under this name.
    case TrackLocked(s) =>
      Inside(st, t, s, FinishTrack(st.live[s].core, c.ok), if c.ok then Recording(s) else CallClose(s, Ended))
    // Without more packets ReadRTP fails. Otherwise a packet is written; ErrClosed ends the loop, another error closes.
    case Recording(s) =>
      var core := st.live[s].core;
      if !c.more || core.recording.closed then Goto(st, t, Ended)
      else Inside(st, t, s, WritePacket(core), if c.ok then Recording(s) else CallClose(s, Ended))
    case PeerStart(s, state) =>
      var core := st.live[s].core;
      Inside(st, t, s, LockPeer(core, t, state),
             if state == Disconnected && !core.cancelled then PeerLocked(s, core.generation + 1)
             else PeerAfter(s, state))
    case PeerLocked(s, g) => Inside(st, t, s, FinishPeer(st.live[s].core, g), Ended)
    case PeerAfter(s, state) =>
      Goto(st, t, if state == Connected then PrimeStart(s)
                  else if state != Failed && state != PeerClosed then Ended
                  else if st.live[s].core.prime.stored then PeerStopping(s)
                  else CallClose(s, Ended))
    case PeerStopping(s) => Inside(st, t, s, CutPrime(st.live[s].core), CallClose(s, Ended))
    case PrimeStart(s) => Goto(st, t, if st.live[s].core.cancelled || !c.ok then Ended else PrimeWaiting(s))
    case PrimeWaiting(s) =>
      var core := st.live[s].core;
      if core.primeOnce.Finished? then Goto(st, t, Ended) else Inside(st, t, s, EnterPrime(core, t), PrimeInside(s))
    case PrimeInside(s) =>
      var core := st.live[s].core;
      Inside(st, t, s, LockPrime(core, t), if core.cancelled then Ended else PrimeLocked(s))
    case PrimeLocked(s) => Inside(st, t, s, StorePrimeCancel(st.live[s].core), PrimeStarting(s))
    case PrimeStarting(s) => Inside(st, t, s, StartRunner(st.live[s].core), PrimeLeaving(s))
    case PrimeLeaving(s) => Inside(st, t, s, LeavePrime(st.live[s].core), Ended)
    // Without more frames the target is reached. A select with both cases ready may take either.
    case PrimeTop(s) => Goto(st, t, if !c.more || PrimeDone(st.live[s].core) then Ended else PrimeSelect(s))
    case PrimeSelect(s) => Goto(st, t, if c.ok then PrimeTicked(s) else Ended)
    case PrimeTicked(s) => Goto(st, t, if PrimeDone(st.live[s].core) then Ended else PrimeWriting(s))
    case PrimeWriting(s) =>
      Inside(st, t, s, RunnerWrites(st.live[s].core, c.ok), if c.ok then PrimeTop(s) else Ended)
    case GraceFired(s, g) =>
      var core := st.live[s].core;
      Inside(st, t, s, CheckGrace(core, g), if StillDisconnected(core, g) then CallClose(s, Ended) else Ended)
    case _ => st
  }

  predicate Enabled(st: State, a: Action) {
    match a
    case Spawn(t, thread) => t !in st.threads && Spawnable(st, thread)
    case ExpiryFires(t, s) =>
      t !in st.threads && s in st.live && st.live[s].core.expiryArmed && st.live[s].entry in st.entries
    case GraceFires(t, s, g) => t !in st.threads && s in st.live && g in st.live[s].core.graceArmed
    case RunnerBegins(t, s) => t !in st.threads && s in st.live && st.live[s].core.prime.runner.Scheduled?
    case Run(t, c) => RunEnabled(st, t, c)
  }

  function Apply(st: State, a: Action): State
    requires Enabled(st, a)
  {
    match a
    case Spawn(t, thread) => Goto(st, t, thread)
    case ExpiryFires(t, s) =>
      Inside(st, t, s, FireExpiry(st.live[s].core), Expiring(st.entries[st.live[s].entry].id, s))
    case GraceFires(t, s, g) => Inside(st, t, s, FireGrace(st.live[s].core, g), GraceFired(s, g))
    case RunnerBegins(t, s) => Inside(st, t, s, BeginRunner(st.live[s].core, t), PrimeTop(s))
    case Run(t, c) => RunStep(st, t, c)
  }

  /** `actions` is a run from `st` to `end`. */
  predicate Reaches(st: State, actions: seq<Action>, end: State)
    decreases |actions|
  {
    if actions == [] then st == end
    else Enabled(st, actions[0]) && Reaches(Apply(st, actions[0]), actions[1..], end)
  }

  ghost predicate Reachable(st: State) {
    exists ttl: bool, actions: seq<Action> :: Reaches(Initial(ttl), actions, st)
  }
}
