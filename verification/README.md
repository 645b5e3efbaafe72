# Verified model of the RTC session core

This project models two components of the home-brain RTC server and proves what they promise, for all inputs and all
runs. Both live in `internal/rtc`.

**The session lifecycle** (`Manager`, `Session`, the audio prime runner and the recorder). The protocol is a state
machine: a set of threads with program counters, one step per critical section, any number of `Create`, `Close`,
`CloseAll`, `MarkConnected`, peer-state, track, audio-prime, grace-timer and expiry-timer threads. A section that reads
the context and then acts on what it read is two steps, because `cancel()` runs outside `stateMu` and can fall between
them. `ProtocolInvariant` holds an inductive invariant, `ProtocolSteps` to `ProtocolRuns` prove that every step keeps
it, and the theorems are in `ProtocolHistory` (no ABA, no zombies), `ProtocolSafety` (leaks, recorders, timers),
`ProtocolFence` (`Close` and `CloseAll`), `ProtocolCancel` (what `cancel()` stops), `ProtocolExpiry` (TTL),
`ProtocolPeers` (lost connections), `ProtocolDebts` (failures that close), `ProtocolTraces` (packets), `ProtocolPrime`
and `ProtocolTurns` (the audio prime's goroutine) and `ProtocolProgress` (deadlock freedom). `SessionObject`,
`ManagerObject`, `ManagerCloses`, `Recording` and `AudioPrime` are the sequential code as classes and loops.
`ProtocolAlone`, `ProtocolCalls`, `ProtocolOperations` and `ProtocolCallbacks` tie them to the protocol: each method of
a session, each operation of the manager, each callback and each timer, run without interference, is a run of the
protocol that ends in exactly the state its method promises.

`LockOrder` spells out the locks of every call path, `Manager.mu` and `recorder.mu` included. Its table of paths is
written by hand from the source; nothing derives it from the threads of `Protocol`, and the read lock of `MarkConnected`
is modelled as exclusive, which can only add waiting.

**The normalisation of SDP answers**: three line-oriented rewriters, chained at `internal/rtc/server.go:186-188`. Each
is a chain of loops over lines (methods, with the indices, insertions and scans of the code) proved equal to a function
that edits one section at a time (`MuxSection`, `MidSection`, `VideoSection`); the properties are proved about those
functions, and `Pipeline` about the chain. `GoText` and `Tokens` define `strings.Split`, `Join`, `Fields`,
`HasPrefix` and `strconv` parsing over `seq<char>`; `Sections` defines the one partition into m-sections that the four
different scanners of the code turn out to compute. `Numerals`, `RtcpMuxExact`, `MediaMidsExact`, `VideoExact` and the
end of `Metadata` say the same once more without the functions of the model: in tokens, numerals, prefixes and line
indices alone, with the literals of the source.

A text is *well framed* when every CR and LF belongs to a line separator: CRLF throughout, or LF without any CR.
Whether a candidate line parses is a parameter `parses: string -> bool` of the model.

One promise of the repository's own design notes is false of the code. They say that the rtcp-mux filter keeps the
final-newline state. It does not when the answer ends in an empty line followed only by removed candidates:
`FinalNewlineGained` is such an answer, with a complete host candidate, for every parser that accepts that one
candidate; `MuxFinalNewline` says exactly when the promise holds.

`dafny verify dfyconfig.toml` checks the whole project.

## Model

| member | source | states |
|---|---|---|
| ProtocolRuns.ApplyKeepsInv | internal/rtc/session_manager.go:39-136 | every step of every thread, whatever the environment answers, keeps the whole invariant, and to the other threads it only moves forward |
| ProtocolRuns.ReachableInv | internal/rtc/session_manager.go:39-136 | the invariant holds after every interleaving of any number of threads |
| ProtocolSafety.NoSessionLeak | internal/rtc/session_manager.go:39-136 | a session is with its running Create, or published, or its Close has started, or some thread is bound to call it |
| ProtocolSafety.QuietMeansPublishedOrClosed | internal/rtc/session_manager.go:39-136 | when all threads have returned, a session is published if and only if it was not closed to the end, and a closed one has its recorder closed |
| ProtocolHistory.RemovedNeverReturns | internal/rtc/session_manager.go:54-88 | an entry that left the map is in the map in no later state |
| ProtocolHistory.RemovalsAreOwn | internal/rtc/session_manager.go:69-88 | whatever takes an entry out is its own Create's cleanup, its own session's expiry or terminal callback, Close of its id, or CloseAll |
| ProtocolHistory.PublishedWasBound | internal/rtc/session_manager.go:54-62 | an entry published later is bound now, at every moment between reservation and publication |
| ProtocolHistory.AnsweredWasBound | internal/rtc/session_manager.go:39-67 | a Create that ends up answering has had its entry in the map since it reserved |
| ProtocolHistory.OverlapAnswersOnce | internal/rtc/session_manager.go:39-67 | of two Creates of one id that overlap between reservation and publication at most one ever answers |
| ProtocolHistory.NilEntryHasOneCreate | internal/rtc/session_manager.go:40-49 | a binding without a session has exactly one Create, and that one is still running |
| ProtocolHistory.TerminalNeverInMap | internal/rtc/session.go:253-255 | after a session's terminal callback no later state has the session under any id |
| ProtocolSafety.RecorderSafety | internal/rtc/session.go:77-93 | at most one recorder per session, closed at most once, its writer sees writes and then at most one close |
| ProtocolSafety.NothingStartsAfterClose | internal/rtc/session.go:227-243 | after Close's critical section no recorder is ever created, and no timer and no cancel function of a prime is ever stored |
| ProtocolCancel.CancelledStartsNothing | internal/rtc/session.go:77-259 | already from cancel() on, with stateMu free at that moment, no recorder is created, no cancel function or timer stored and no grace timer armed in any later state: each critical section re-checks the context |
| ProtocolSafety.CloseReturnsDone | internal/rtc/session.go:227-259 | any call of Close that returns, first or late, returns after the body of closeOnce is done |
| ProtocolSafety.CloseReturnsClosed | internal/rtc/session.go:227-259 | after any call of Close returned the created recorder is closed, and its writer's trace never changes again |
| ProtocolSafety.DoneStaysClosed | internal/rtc/session.go:227-259 | a session closed to the end is cancelled, out of the map and has its recorder closed, in every later state |
| ProtocolSafety.GraceTimerCurrent | internal/rtc/session.go:136-149 | a stored grace timer is the one of the last delivered state, which is Disconnected; no other one can fire; none after Close's critical section |
| ProtocolSafety.GraceCheckSound | internal/rtc/session.go:213-221 | when the check of a fired timer passes, no peer state was delivered since that timer was armed |
| ProtocolPeers.GraceCoverage | internal/rtc/session.go:136-149 | while the last state is Disconnected and the session open, its own grace timer runs, is being armed or handled, or a Close is begun or owed |
| ProtocolPeers.DisconnectedMeansClosedOrTimed | internal/rtc/session.go:136-225 | when all threads have returned, a session last seen Disconnected is closed to the end or its own grace timer runs |
| ProtocolPeers.GoneLeavesClose | internal/rtc/session.go:150-156 | after a delivered Failed or Closed state a Close has begun or some thread goes on to it |
| ProtocolPeers.GoneMeansClosed | internal/rtc/session.go:150-156 | when all threads have returned, a session whose peer ever failed or closed is closed to the end |
| ProtocolSafety.TtlCoverage | internal/rtc/session_manager.go:63-65 | with a TTL the session of a returned Create is cancelled, or has its stored timer running, or has expired |
| ProtocolExpiry.FiredLeavesMap | internal/rtc/session_manager.go:69-80 | a session still published after its expiry fired has its expire call still to come |
| ProtocolExpiry.TtlNeverLost | internal/rtc/session_manager.go:63-80 | with a TTL, when all threads have returned, every answered session is closed or its timer is running |
| ProtocolPrime.OnePrimeRunner | internal/rtc/session.go:163-202 | at most one runner per session, only after its cancel function was stored; a stored one has its runner unless the storing thread is still between unlocking and its `go` statement |
| ProtocolPrime.StartsAfterCloseExactly | internal/rtc/session.go:173-180 | once Close is past stopAudioPrime, a runner can still start if and only if some thread is between unlocking and its `go` statement |
| ProtocolPrime.LateRunnerIsSilent | internal/rtc/audio_prime.go:71-74 | such a late runner belongs to a cancel function stored before, and never writes |
| ProtocolPrime.OneMoreWrite | internal/rtc/session.go:204-211 | once the runner's context is done, by Close or by stopAudioPrime, at most one more write starts in any run, and none if the runner did not run before |
| ProtocolPrime.RunnerMatchesLoop | internal/rtc/audio_prime.go:70-91 | in every interleaving the runner's turns are a coherent environment of the loop: write i carries frame i mod n, and only the last can have started after its context was done |
| ProtocolFence.CloseAllCloses | internal/rtc/session_manager.go:120-136 | every session published when CloseAll took the map is closed to the end when CloseAll returns |
| ProtocolFence.CloseAllFences | internal/rtc/session_manager.go:54-60 | a Create that had reserved but not published by then never answers; its entry stays out, and once it returns it has failed with its session closed |
| ProtocolFence.CloseIdUnbinds | internal/rtc/session_manager.go:105-112 | Close of an id frees exactly that id, whether its entry holds a session or its Create is still running |
| ProtocolFence.CloseIdFences | internal/rtc/session_manager.go:105-118 | a Create of the id that had reserved but not published by then never answers; its entry stays out, and once it returns it has failed with its session closed |
| ProtocolFence.CloseIdCloses | internal/rtc/session_manager.go:113-118 | the session that Close of an id found is closed to the end when the call returns |
| ProtocolFence.ExpiryExactly | internal/rtc/session_manager.go:69-80 | an expiry takes out exactly its own session and has closed it when it returns; otherwise it does nothing |
| ProtocolTraces.PacketStep | internal/rtc/session.go:95-112 | a packet on an open recorder is one write, then the next packet or, after a failure, Close; any other outcome changes nothing and ends the loop |
| ProtocolTraces.TraceIsPackets | internal/rtc/session.go:95-112 | in every run the writer of a session has seen exactly one write per packet taken by an open recorder, then at most its close |
| ProtocolDebts.FailedWriteCloses | internal/rtc/session.go:104-109 | when all threads have returned, a session one of whose packets could not be written is closed to the end |
| ProtocolDebts.FailedRecorderCloses | internal/rtc/session.go:83-88 | and so is one whose recorder could not be created |
| ProtocolTurns.ChecksExactly | internal/rtc/audio_prime.go:72-81 | in a context that is done each check leads to the end and never to a write; otherwise on to the select and to the write |
| ProtocolTurns.LateWriteExactly | internal/rtc/audio_prime.go:72-87 | once the runner's context is done, some run writes another sample if and only if the runner has already passed the check after its tick |
| ProtocolTurns.RunnerAlone | internal/rtc/session.go:176-183 | a scheduled runner in a live context comes to its first write |
| ProtocolProgress.WaitingIsAcyclic | internal/rtc/session.go:136-259 | whom a thread waits for exists, has not returned, and is strictly lower in a fixed order |
| ProtocolProgress.BlockedExactly | internal/rtc/session.go:136-259 | a thread that has not returned can take a step if and only if it waits for nobody |
| ProtocolProgress.NoDeadlock | internal/rtc/session.go:136-259 | in every reachable state with an unfinished thread some unfinished thread can take a step |
| LockOrder.PathsOrdered | internal/rtc/session_manager.go:39-136 | every call path takes closeOnce or audioPrimeOnce before mutexes and holds no mutex while taking another lock |
| LockOrder.NoLockCycle | internal/rtc/session_manager.go:39-136 | in every run of any number of these paths some goroutine can make its next step |
| LockOrder.MutexesAreLast | internal/rtc/session_manager.go:39-136 | a holder of Manager.mu (or any mutex) gives it back before it takes anything, and nobody else holds it meanwhile |
| ProtocolAlone.CloseAlone | internal/rtc/session.go:227-259 | an uninterrupted Close is a run of the protocol that ends in what the object's method promises and removes only the session's own entry |
| ProtocolCalls.TrackAlone | internal/rtc/session.go:77-93 | an uninterrupted startRecorder is a run of the protocol that ends in what the object's method promises |
| ProtocolCalls.PeerAlone | internal/rtc/session.go:136-149 | the same for the critical section of handlePeerConnectionState |
| ProtocolCalls.TtlAlone | internal/rtc/session.go:126-134 | the same for setExpiryTimer at the end of Create |
| ProtocolCalls.PrimeAlone | internal/rtc/session.go:159-202 | the same for startAudioPrime, ready or not, first call or later, open or cancelled |
| ProtocolCalls.GoneAlone | internal/rtc/session.go:153-156 | the same for stopAudioPrime after a Failed or Closed state, on the way to Close |
| ProtocolOperations.CreateAlone | internal/rtc/session_manager.go:39-67 | Create of a free id answers, with its own new session published under exactly that id and, with a TTL, its timer running and stored; nothing else changes |
| ProtocolOperations.CreateRefused | internal/rtc/session_manager.go:40-44 | Create of an id in use is refused, whatever its entry holds, and changes nothing |
| ProtocolOperations.CreateFailsAlone | internal/rtc/session_manager.go:49-53 | when NewSession makes no session, Create fails and the id is as free as it was |
| ProtocolOperations.SetupFailsAlone | internal/rtc/server.go:158-209 | when setting a session up fails, Create fails, the session is closed to the end and the id is free |
| ProtocolOperations.CloseAllBegins | internal/rtc/session_manager.go:120-130 | CloseAll takes the whole map at once and goes on to close what was published in it, in any order |
| ProtocolCallbacks.MarkAlone | internal/rtc/session_manager.go:90-103 | MarkConnected of a published session marks exactly that one |
| ProtocolCallbacks.CloseIdAlone | internal/rtc/session_manager.go:105-118 | Close of a published session is a run that leaves it as its own Close promises, and exactly its id free |
| ProtocolCallbacks.ExpiryAlone | internal/rtc/session_manager.go:63-80 | the same for an expiry timer that fires |
| ProtocolCallbacks.GraceAlone | internal/rtc/session.go:146-225 | a grace timer that fires closes its session and takes exactly its entry out of the map |
| ProtocolCallbacks.GraceExactly | internal/rtc/session.go:213-225 | in every reachable state the callback of a grace timer goes on to Close if and only if the session is open and the Disconnected state that armed it is the last one delivered; otherwise it changes nothing |
| ProtocolCallbacks.MarkMissing | internal/rtc/session_manager.go:90-100 | MarkConnected of an id without a published session changes nothing |
| ProtocolCallbacks.PeerCall | internal/rtc/session.go:136-157 | every peer state delivered to an open session: Connected starts a ready prime, Disconnected arms the grace timer, Failed and Closed stop the prime and close; only the session and its own binding change |
| ProtocolCallbacks.TrackCall | internal/rtc/session.go:54-93 | an audio track gets the recorder exactly as the first one on an open session |
| SessionSequences.ClosedIsTheSteps | internal/rtc/session.go:227-259 | the effect of Close equals its eight critical steps one after the other |
| SessionSequences.ClosedEndsAll | internal/rtc/session.go:227-259 | after Close no timer is stored, no grace timer armed, the recorder closed; a second Close changes nothing |
| SessionSequences.PeerHandledKeeps | internal/rtc/session.go:136-149 | a delivered state leaves a grace timer armed exactly when it is Disconnected and the session open, and only its own |
| SessionSequences.ExpirySetKeeps | internal/rtc/session.go:126-134 | setExpiryTimer leaves the session cancelled, or with its running timer stored, or expired |
| SessionSteps.DrainKeeps | internal/rtc/session.go:231-243 | Close's critical section keeps the session invariant although cancel() ran outside stateMu |
| SessionSteps.FinishTrackKeeps | internal/rtc/session.go:83-92 | creating the recorder keeps the session invariant even when cancel() fell between check and creation |
| SessionObject.SessionState.StartRecorder | internal/rtc/session.go:77-93 | a recorder is handed out exactly to the first caller on an open session, and stored; a failed creation asks for Close |
| SessionObject.SessionState.SetExpiryTimer | internal/rtc/session.go:126-134 | the timer is stored on an open session and stopped on a cancelled one |
| SessionObject.SessionState.HandlePeerConnectionState | internal/rtc/session.go:136-157 | the old grace timer is stopped, a new one armed exactly for Disconnected, one prime runner for Connected if enabled with a writer, Close asked for on Failed and Closed |
| SessionObject.SessionState.StartAudioPrime | internal/rtc/session.go:159-202 | starts a runner exactly on the first call on an open session whose prime is enabled and has a writer |
| SessionObject.SessionState.CloseIfStillDisconnected | internal/rtc/session.go:213-225 | closes exactly when not cancelled, still Disconnected and of the current generation |
| SessionObject.SessionState.Close | internal/rtc/session.go:227-259 | the first call stops timers, closes the recorder and runs the callback once; every call reports the first call's first error |
| Recording.RecorderDiscipline | internal/recording/recorder.go:106-126 | writes and closes in any order keep the trace writes-then-at-most-one-close; an open recorder passes on every packet and its close, a closed one nothing |
| Recording.OggRecorder.WriteRTP | internal/recording/recorder.go:106-116 | appends exactly one write to the writer's trace unless closed or without a packet, with the error of each case |
| Recording.OggRecorder.Close | internal/recording/recorder.go:118-126 | closes the writer once; a later call reports no error |
| ManagerObject.Manager.Reserve | internal/rtc/session_manager.go:40-47 | an id in use is refused and nothing changes; otherwise a new entry without a session is bound to it |
| ManagerObject.Manager.Publish | internal/rtc/session_manager.go:54-62 | publishes if and only if the very same entry object is still bound |
| ManagerObject.Manager.RemoveEntry | internal/rtc/session_manager.go:82-88 | takes out the binding only if it is the expected object, as the protocol's step does |
| ManagerObject.Manager.TakeExpired | internal/rtc/session_manager.go:69-76 | unbinds exactly when the id still holds the expected session |
| ManagerObject.Manager.TakeAll | internal/rtc/session_manager.go:121-129 | yields every published session once per binding, in any order, and clears the map |
| ManagerObject.CloseEach | internal/rtc/session_manager.go:131-135 | the loop closes every session, though closing one may not disturb another, and joins the errors in order |
| ManagerCloses.CloseOne | internal/rtc/session_manager.go:105-118 | frees exactly that id, and closes its session if it had one |
| ManagerCloses.CloseAll | internal/rtc/session_manager.go:120-136 | empties the map, closes exactly the published sessions and joins their errors |
| AudioPrime.RunAudioPrime | internal/rtc/audio_prime.go:59-92 | the loop comes to the specified outcome and writes, stops the ticker on every path, refuses an empty frame list, and gives each reason exactly for the first turn that a check, the select or a failed write ended |
| AudioPrime.WritesInOrder | internal/rtc/audio_prime.go:71-91 | write k carries frame k mod n, and all but a failing last write succeed |
| AudioPrime.FramesAreSuccesses | internal/rtc/audio_prime.go:70-91 | the returned number is the number of successful writes |
| AudioPrime.DurationExactly | internal/rtc/audio_prime.go:71-91 | the reason is duration if and only if in every turn both checks and the select passed and the write succeeded; then all target frames were sent |
| AudioPrime.WritesPass | internal/rtc/audio_prime.go:72-87 | a write starts only in a turn whose context was live at the head, in the select and again after the tick |
| AudioPrime.ReasonsExactly | internal/rtc/audio_prime.go:70-91 | cancelled, duration or an error if and only if the first turn that did not write successfully was stopped, did not exist, or failed to write |
| AudioPrime.ConfiguredExactly | internal/rtc/server.go:70-75 | ten seconds unless set, and refused unless a positive multiple of 20 milliseconds |
| AudioPrime.OneLateWrite | internal/rtc/audio_prime.go:72-87 | at most one write starts after cancellation, and it is the last |
| AudioPrime.CancelledTruly | internal/rtc/audio_prime.go:72-81 | the reason cancelled is given only in a cancelled context, before the target |
| AudioPrime.PlaysConfiguredDuration | internal/rtc/server.go:70-75 | with the validated or default duration, reason duration means that exactly this duration was played; no run plays more |
| Pipeline.NormalizeAnswer | internal/rtc/server.go:186-188 | the three loops chained come to the composition of the three section-wise functions |
| Pipeline.ChainIdempotent | internal/rtc/server.go:186-188 | on well-framed offer and answer the whole chain is idempotent, payload `0` included |
| Pipeline.ChainSectionsTwice | internal/rtc/server.go:186-188 | each stage leaves the next ones' work done, section by section, for every offer |
| Pipeline.ChainLines | internal/rtc/server.go:186-188 | the chain keeps framing, separator and session-level lines, and edits section by section |
| Pipeline.ChainKeepsMediaLines | internal/rtc/server.go:186-188 | the chain keeps the number and order of m-sections and the media of each |
| Pipeline.ChainKeepsMetadata | internal/rtc/server.go:189-203 | the logged metadata of any answer is the same before and after the chain, whatever the line endings |
| Pipeline.MuxCommutesWithVideo | internal/rtc/server.go:213-511 | the rtcp-mux stage commutes with the video stage on well-framed texts |
| Pipeline.MuxCommutesWithMid | internal/rtc/server.go:213-402 | the rtcp-mux stage commutes with the MID stage on well-framed texts |
| Pipeline.VideoKeepsMids | internal/rtc/server.go:186-188 | sections the video stage leaves alone are left alone after they gained their MIDs |
| Pipeline.MidFirstLosesMid | internal/rtc/server.go:186-187 | the two stage orders differ on every section whose m-line has fewer than four fields and whose video-normalised form needs a MID |
| Pipeline.MidFirstExample | internal/rtc/server.go:186-187 | a concrete rejected video section on which the two stage orders differ |
| RtcpMuxExact.DeletedExactly | internal/rtc/server.go:228-262 | in tokens and numerals alone: a line is deleted if and only if it is an `a=candidate:` line with a foundation, second token `2`, that parses, in a section of `m=audio` with a positive 64-bit port and the line `a=rtcp-mux` |
| RtcpMuxExact.OtherComponentsStay | internal/rtc/server.go:247-254 | a line whose second token is not `2` is never deleted |
| RtcpMux.NormalizeRtcpMuxCandidates | internal/rtc/server.go:213-273 | the removal loops equal filtering each section; which lines that deletes is DeletedExactly |
| RtcpMux.MarkSection | internal/rtc/server.go:228-262 | marks exactly the candidates of one section, those of DeletedExactly, and touches no other mark |
| RtcpMuxProperties.RemovedExactly | internal/rtc/server.go:213-273 | exactly the lines flagged as in DeletedExactly are deleted; all other lines stay in order, for every text |
| RtcpMuxProperties.MuxIdempotent | internal/rtc/server.go:213-273 | idempotent on every text, mixed and lone line endings included |
| RtcpMuxProperties.MuxTextLines | internal/rtc/server.go:214-218 | splitting the output with the re-detected separator gives the filtered lines, for every text |
| RtcpMuxProperties.MuxSectionShape | internal/rtc/server.go:228-262 | a filtered section keeps its m-line and its `a=rtcp-mux`, so a second run sees the same section |
| RtcpMuxProperties.MuxFinalNewline | internal/rtc/server.go:213-273 | the final-newline state is kept if and only if the text does not end in an empty line followed only by removed candidates |
| RtcpMuxProperties.FinalNewlineGained | internal/rtc/server.go:213-273 | a concrete LF answer without a final newline gains one, for every parser that accepts its one complete host candidate |
| MediaMids.NormalizeRejectedMediaMids | internal/rtc/server.go:282-320 | the loop over section starts equals the positional edit of each section |
| MediaMids.OfferMediaSections | internal/rtc/server.go:322-351 | the offer scan yields media type and first MID of each section of the partition |
| MediaMids.RejectedMidInsertAt | internal/rtc/server.go:353-381 | an index exactly when the section needs its MID, and then the position before its first attribute |
| MediaMidsExact.MediaLineExactly | internal/rtc/server.go:383-402 | in tokens and numerals alone: an m-line is well formed if and only if it has four tokens, a media type and a port below 2^16, alone or with a positive count below 2^32 |
| MediaMidsExact.NeedsMidExactly | internal/rtc/server.go:353-370 | a section gains a MID if and only if its port is `0`, its type the one offered at its index, the offer has a MID there and the section none |
| MediaMidsExact.OfferExactly | internal/rtc/server.go:322-351 | the entry of offer section i is the type of its well-formed m-line and the rest of its first `a=mid:` line |
| MediaMidsExact.MidGoesFirst | internal/rtc/server.go:371-381 | the new line is `a=mid:` and the offered MID, before the first `a=` line, else at the end before an empty last line |
| MediaMidsProperties.MidSectionExact | internal/rtc/server.go:299-320 | a section gains exactly its offered MID when it needs one, deleting that line restores it, and it then needs none |
| MediaMidsProperties.MidComesFirst | internal/rtc/server.go:371-381 | the MID comes right before the first attribute line of the section, or at its end |
| MediaMidsProperties.MidPositional | internal/rtc/server.go:299-320 | section i is edited with offer section i and nothing else |
| MediaMidsProperties.MidInsertOnly | internal/rtc/server.go:299-320 | deleting the inserted lines gives the answer's lines back |
| MediaMidsProperties.MidIdempotent | internal/rtc/server.go:282-320 | a second run changes nothing on well-framed texts |
| MediaMidsProperties.MidFinalNewline | internal/rtc/server.go:282-320 | the final-newline state is kept on well-framed texts |
| VideoLoop.NormalizeRejectedVideoPayloads | internal/rtc/server.go:441-511 | the in-place loop with insertions and skipped indices equals editing section by section |
| VideoLoop.RewriteVideos | internal/rtc/server.go:451-509 | the same for the line slice; terminates on unvisited video lines, then lines left |
| VideoLoop.EditVideo | internal/rtc/server.go:453-508 | one turn on a video line rewrites exactly its section, and fewer video lines are left to visit |
| VideoLoop.NormalizeVideoMLine | internal/rtc/server.go:518-537 | eligibility and the new m-line, computed from byte spans |
| VideoPayloads.OfferedVideoPayloads | internal/rtc/server.go:557-586 | the scan with its inner loops yields one entry per offered video section; what an entry is, OfferedExactly says |
| VideoExact.OfferedExactly | internal/rtc/server.go:557-586 | the k-th entry is what the k-th `m=video ` section selects, and there are no others |
| VideoExact.SelectsExactly | internal/rtc/server.go:566-583 | nothing with fewer than four tokens; else `102` if it is among the formats, the first format otherwise, with the first rtpmap line of that payload, empty if and only if there is none |
| VideoExact.MLineBytes | internal/rtc/server.go:518-537 | of four tokens only the bytes of the last are replaced; to three the payload is appended, after one space unless a blank is there |
| VideoExact.VideoSectionInTokens | internal/rtc/server.go:463-508 | in tokens and lines alone: which sections change, and what their m-line, directions, rtpmaps and other lines are then |
| VideoExact.RtpMapGoes | internal/rtc/server.go:474-488 | a missing rtpmap goes before the first `a=` line, else at the end before an empty last line of the text; a mapped payload gets no second one |
| VideoExact.DirectionGoes | internal/rtc/server.go:490-507 | directions become inactive where they stand; a missing one goes to the end in the same sense |
| VideoExact.BeyondOffers | internal/rtc/server.go:457-461 | video sections beyond the offered ones stay as they are |
| VideoProperties.RtpMapTokens | internal/rtc/server.go:597-608 | an rtpmap line with at least two tokens maps its first token; any other line maps nothing |
| VideoProperties.MLineEligible | internal/rtc/server.go:518-531 | an m-line is rewritten if and only if it is a rejected video line with no format or just `0` and a payload was offered |
| VideoProperties.MLineTokens | internal/rtc/server.go:518-537 | the first three tokens stay and the payload becomes the only format |
| VideoProperties.MLineTwice | internal/rtc/server.go:518-537 | a rewritten m-line is not eligible again, except with payload `0`, which changes nothing |
| VideoProperties.VideoSectionExact | internal/rtc/server.go:463-508 | only eligible sections change: inactive afterwards with no other direction, one rtpmap gained exactly when missing and offered, other lines kept in order |
| VideoProperties.MapComesFirst | internal/rtc/server.go:474-488 | a copied rtpmap comes before the section's first attribute, or at its end |
| VideoProperties.InactiveComesLast | internal/rtc/server.go:499-507 | a missing direction is added at the section's end |
| VideoProperties.VideoSectionTwice | internal/rtc/server.go:463-508 | editing an edited section changes nothing |
| VideoAnswers.VideoPairing | internal/rtc/server.go:452-462 | the k-th video section uses the k-th offered video; no m-line is skipped |
| VideoAnswers.VideoLinesShape | internal/rtc/server.go:451-511 | the partition is kept, a second run changes nothing, and at most two lines per video section are added |
| VideoAnswers.VideoIdempotent | internal/rtc/server.go:441-511 | a second run changes nothing on well-framed texts |
| VideoAnswers.VideoFinalNewline | internal/rtc/server.go:441-511 | the final-newline state is kept on well-framed texts |
| Metadata.ExtractIceMetadata | internal/rtc/server.go:410-437 | the early-exit loop reads exactly the session-level lines |
| Metadata.MetadataExactly | internal/rtc/server.go:410-437 | in the lines before the first m-line: `a=ice-lite`, the option `trickle`, and the MIDs of the first line whose first token is `a=group:BUNDLE` |
| Metadata.OptionLineIsNotBundle | internal/rtc/server.go:418-431 | the early `continue`s lose nothing: those lines are never BUNDLE lines |
| Metadata.MetadataOfHead | internal/rtc/server.go:410-437 | the metadata depends only on the text before the first m-line |
| Tokens.FieldSpans | internal/rtc/server.go:539-555 | the spans of the hand-written tokeniser |
| Tokens.SpacesExactly | internal/rtc/server.go:229 | the token separators are the 25 code points that Unicode calls white space |
| Numerals.AtoiMeans | internal/rtc/server.go:233 | a port is accepted if and only if it is a decimal numeral of a 64-bit integer, leading zeros and a sign allowed |
| Numerals.ParseUintMeans | internal/rtc/server.go:392-399 | the same for unsigned numerals below a limit, without a sign |
| Tokens.SpanText | internal/rtc/server.go:539-555 | span k is token k, bounded by blanks or the ends of the line |
| Sections.FindSectionEnd | internal/rtc/server.go:224-227 | the scan stops at the next m-line or at the end |
| Sections.ScanSection | internal/rtc/server.go:220-227 | such a scan finds exactly the next section of the partition |
| Sections.ParseFlat | internal/rtc/server.go:293-309 | the partition of concatenated sections is those sections |
| GoText.SeparatorMeans | internal/rtc/server.go:214-217 | the separator is CRLF if and only if a CR stands right before an LF somewhere |
| GoText.WellFramedMeans | internal/rtc/server.go:214-218 | the texts of the idempotence theorems are exactly those without a CR, and those whose CRs and LFs come only in pairs |
| GoText.ReplaceMeans | internal/rtc/server.go:558 | replacing CRLF by LF is splitting at CRLF and joining with LF |
| GoText.JoinSplit | internal/rtc/server.go:214-218 | joining the split lines gives the text back, for every separator |
| GoText.SplitJoin | internal/rtc/server.go:264-272 | splitting joined lines gives them back when no line contains the separator |
| GoText.RoundTrip | internal/rtc/server.go:214-218 | re-detecting the separator of joined stable lines finds it again and gives the lines back |
| GoText.LinesStable | internal/rtc/server.go:214-218 | the lines of every text, mixed endings included, are stable under joining and re-splitting |
| GoText.UnixLines | internal/rtc/server.go:557-558 | replacing CRLF before splitting gives the same lines on well-framed texts |

## Left out

- Pion (`PeerConnection`, ICE, DTLS, RTP, the OGG writer, the SDP and candidate parsers): foreign code. Its outcomes are nondeterministic choices or parameters, its callbacks arbitrary event sequences.
- `validateOffer`, `internal/httpapi`, `cmd/rtc-server`, `cmd/rtc-probe`, `internal/config` and `lambda/index.mjs`: input checks, routing, configuration and diagnostics around the two components.
- Recording paths and `sanitizeSessionID`: library path functions and a character filter.
- Logging and wall-clock time: an armed timer may fire at any later moment.
- Effects of the memory model below mutex, once and context; `disconnectGeneration` is a natural number, so its wrap-around at 2^64 is not modelled.
- Strings are sequences of characters: invalid UTF-8 in an SDP text is not modelled.
- `peer.Close()` is one step that returns: whether Pion makes it wait for running callbacks is not modelled.
- Liveness: the model proves that some step is always possible, not that a scheduler takes it.
- The goroutine started by `go s.Close()` goes on under the name of the thread that started it, which has no other work left at that point.
- Critical sections under `Manager.mu` and `recorder.mu` are single steps of the protocol; `LockOrder` has them as locks of their own.
- The caller of a `Create` may cancel its context: this is one of the ways in which `NewSession` fails.
- `SessionObject` and `ManagerObject` describe calls that do not overlap; overlapping calls are the protocol's subject.
- ProtocolSafety.TtlCoverage: says nothing for a TTL that is not positive, because then no timer is started.
- Pipeline.ChainIdempotent: is stated for well-framed texts; for texts with stray CR or LF only the rtcp-mux stage is proved idempotent, and the metadata result proved for the chain.
