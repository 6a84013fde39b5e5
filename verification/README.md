# SpeechMesh: a verified model of its protocols and pipelines

SpeechMesh is a speech gateway: clients open recognition and synthesis sessions over a
websocket, `/control` requests play audio on remote device agents, bridges talk to speech
providers, and a command-line application keeps itself up to date. This project models the
parts whose correctness depends on interleavings, on long runs or on two components that must
undo each other, and proves what every run of them keeps.

| files | what they model |
|---|---|
| `Playback` | `/control` play_audio from the base64 payload to the player process, as a state machine over lock scopes and channel operations |
| `PlaybackWaiters`, `PlaybackRequests` | what every run of it keeps: one-shot answers, no waiter left behind, requests that keep what they were asked |
| `PlaybackLinks`, `PlaybackRuns`, `PlaybackTheorems` | one task id through a whole run, and exact delivery |
| `PlaybackRoutes`, `PlaybackReports` | whose route it is, and which routes are left when nothing more can happen |
| `PlaybackExecutions`, `PlaybackReuse` | runs built step by step, and exactly when a task id may be used again |
| `DeviceAgent`, `DeviceRegistry` | the device agent's task tracker and the device crate's registry, changed in place |
| `SessionRoutes`, `SessionProtocol` | session routes, task waiters and agent removal: the registry in place, and remote ASR sessions as a state machine |
| `MiniMaxSession`, `MiniMaxTheorems`, `MiniMaxAudio` | the two-input synthesis loop and the payload decoder |
| `ClientConnection`, `ConnectionTheorems` | one client connection and its at most one held session |
| `TtsPipeline`, `AsrPump`, `AsrMiniMax` | audio split, pump and collector; recognition results and deltas; the buffering recognition loop |
| `Wav` | the WAV writer of the bridges against the WAV reader of the Go example |
| `ProviderState` | the provider state file, a sorted list refining a map |
| `SemVer`, `ReleaseSelection`, `ReplaceBinary`, `AutoUpdate`, `AutoUpdateTheorems` | choosing, installing and repeatedly updating the binary |
| `Common`, `Order`, `Text`, `Base64` | shared types, stable sorting, `str` functions, section 4 of RFC 4648 |

## How the concurrency is modelled

`Playback.State` holds the three shared tables (registered agents with their task routes, and
task waiters), every `/control` request with its program counter, and every agent connection
with its command channel, its device agent and the gateway task that serves it. An event is one
lock scope or one channel operation; an event that is not enabled leaves the state alone, so a
run is any sequence of events and every theorem is about all of them. Channels are append-only
logs with a read position. Statuses reach the gateway only out of the device agent's own
tracker, which composes the two programs: the gateway never sees a status that no agent sent. An
agent is registered before it is greeted, and its device ignores whatever is on the connection
ahead of the greeting.

Session routes and task routes share no lock and no step, so remote ASR sessions are a second
machine, `SessionProtocol`. An operation that spans several lock scopes or sends is split: its
second half waits in `todo`, or in `held` once it has taken a route out of the table, and any
other step can come between, also between the two sends that end a session. Where a lock scope is
followed by a send on a oneshot that the scope took out of the table, nobody else can send on
that oneshot, so `mark_session_started` is one step. The caller of `start_stream` is part of the
machine: it waits, gives up after a timeout or a failed send, or returns.

Loops and objects that the source updates in place are classes and methods. The functions their
contracts name are those the run theorems speak about for `DeviceAgent.TaskTracker` (`Handle`,
`AbortAll`), `DeviceRegistry.AgentRegistry` (`TasksOf`, `TasksWithout`), `ClientConnection.Connection`
(`Step`), `MiniMaxSession.Loop`, `AsrMiniMax.Session`, `ProviderState.StateFile`,
`ReplaceBinary.Directory`, `AutoUpdate.AutoUpdater` and the pumps and codecs.
`SessionRoutes.GatewayRegistry` is the registry's sequential side: every method keeps `Valid()` (no
two waiters share a channel, a route still pending has had no answer), and registering or
unregistering an agent states the whole removal; `SessionProtocol` shares its `SessionsWithout`,
`SessionsOf` and `FarewellEvents` and adds the interleavings.

## Assumptions

- Exact delivery needs a play_audio id to be used in order (`PlaybackRuns.Orderly`): audio is submitted with it only when every earlier request with it has been accepted, or rejected before anything was sent. `PlaybackReuse` proves that this is exactly what is needed. Nothing is assumed about other ids, and the waiter theorems assume nothing about ids at all.
- Session ids are fresh; the model numbers them.
- A new binary reports the version its manifest names: `Faithful` in the update theorems. The updated path is the binary the supervisor restarts.
- `usize` has 64 bits, so the products in `streaming_partial_trigger_bytes` do not overflow.
- Any write, send, download, rename, restart, bridge call or transcription may fail, whenever the model gives it an outcome parameter.

## What was found

- A play_audio id that is used again while its first request waits, or after that request was rejected with something sent (a timeout, say), lets the Finished of the first request answer the waiter of the second, which is then accepted although its audio reached no player (`PlaybackReuse.ReuseBreaksDelivery`). Reuse after an acceptance, or after a rejection that sent nothing, is safe (`PlaybackReuse.ReuseIsSafeExactly`); a list of submissions is safe in every run if and only if no two of them carry audio with one id (`PlaybackReuse.UniqueIdsDeliverExactly`).
- A `start_stream` that times out, or whose start could not be sent, returns an error to its caller although the session's start may have been acknowledged; the session is then told Ended if and only if the acknowledgement came before the caller gave up (`SessionProtocol.EndedDespiteErrorExactly`, `LateAcknowledgementHappens`).
- An agent's last words can still reach a session that was refused: an event looked up before the removal is delivered after it. The registry's own answers are not affected (`SessionProtocol.RemovalTellsEachOnce`); `SessionProtocol.LastWordsReachRefused` is such a run.
- A request that times out leaves its route, and with it its id, taken. In every run such a route was left by a request that sent everything, to the connection its agent is registered with (`PlaybackRoutes.RoutesLeftBehind`), and the device's report or the agent's leaving frees it. A request routed between registration and greeting is ignored by the device as a whole, so nothing is ever reported (`PlaybackReports.GreetingComesTooLate`); for an id used in order that is the only way a route can stay once device and gateway have dealt with everything (`PlaybackReports.DrainedRouteWasIgnored`).
- When `route_play_audio_chunk` or `route_play_audio_finish` finds no route, the request returns without removing its waiter. The waiter is still not stranded: whoever took the route away is about to resolve it (`PlaybackWaiters.NoWaiterStranded`).
- `handle_agent_connection` returns on a read error or on invalid JSON without unregistering its agent (speechmeshd/src/agent.rs:873-884); the playback machine has this as its own event, `Drop`, and every guarantee survives it.
- A restart that fails after the binary was replaced makes the cycle report `applied: false`, so the loop goes on in the old process and compares manifests with the old version: it can reinstall the same version or downgrade. Runs only advance in general exactly when no service manager is asked to restart (`AutoUpdateTheorems.RunsAdvanceExactlyWithoutServiceManager`), and one state is safe exactly when the installed version is not newer than the running one (`NextInstallIsNewerExactly`).
- Candidate versions that partly parse can compare in a circle (`ReleaseSelection.MixedVersionsCanCircle`), and then a manifest need not have a newest release (`ReleaseSelection.ManifestWithoutNewest`) and the library's sort may panic. They compare consistently if and only if no version that does not parse lies, as text, between two that do and are ordered the other way (`ReleaseSelection.ComparableExactly`).
- Buffered synthesis does not clear its buffer on commit: with a second commit the text is sent again (`MiniMaxTheorems.BufferedTextExactly`, with `SecondCommitRepeats`), and an append, commit or task_started after both a commit and task_started writes behind the finish (`MiniMaxTheorems.FinishIsLastExactly`, with `LateTextFollowsFinish`).
- `readWAV` fails with an end-of-file error on an empty chunk at the very end of a file, so an insertion after it changes the result, and so does one that lifts a file over the reader's 44 bytes; `Wav.UnknownChunkIsIgnoredExactly` says exactly when insertions go unnoticed, and `Wav.EmptyLastChunkMatters` and `Wav.ShortFileMatters` give files for the two cases.
- A base64 payload made only of hexadecimal digits is decoded as hexadecimal (`MiniMaxAudio.Base64RoundTripExactly`, with `HexLookalikeIsMisread`), and `u8::from_str_radix` lets a plus sign stand for a leading zero.
- The partial trigger is zero for PCM without a rate or without channels (`AsrMiniMax.TriggerIsPositiveExactly`).

## Model

| member | source | states |
|---|---|---|
| PlaybackTheorems.ExactDelivery | speechmeshd/src/server.rs:201-281 | In every run in which its id is used in order, whatever other ids do: a request answered accepted was played by its answer. One connection of the agent the reply names has a player that received exactly the decoded payload and exited with success, and has reported so, with the reply's counts, since the submission; no other connection's player for the id has changed. |
| PlaybackTheorems.ExactDeliveryAlone | speechmeshd/src/server.rs:201-281 | The same at the end of the run when no other submission of audio uses the id, and then no other connection ever had a player for it. |
| PlaybackReuse.UniqueIdsDeliverExactly | speechmeshd/src/agent.rs:249-272 | For any list of submissions: all runs with these submissions deliver what they accept if and only if no two of them carry audio with one id. |
| PlaybackReuse.ReuseIsSafeExactly | speechmeshd/src/agent.rs:249-272 | For any set of allowed standings of the earlier requests of an id: all runs that reuse ids only then deliver what they accept if and only if the set allows only requests accepted, or rejected with nothing sent. |
| PlaybackReuse.ReuseBreaksDelivery | speechmeshd/src/agent.rs:548-577 | For any submissions and any two of them that carry audio with one id there is a run that accepts the second without delivering it: every player has received the payload of the first, which still waits or has timed out. |
| PlaybackReuse.DeliveryHappens | speechmeshd/src/server.rs:201-281 | For any audio in pieces of any size there is a run that delivers and accepts it. |
| PlaybackWaiters.AnsweredAtMostOnce | speechmeshd/src/agent.rs:264-272 | In every run, with any reuse of ids, a request's waiter is sent to at most once, and exactly when it has a result. |
| PlaybackWaiters.NoWaiterStranded | speechmeshd/src/server.rs:222-267 | In every run, a request that has returned, on whatever path, still owns a waiter only while a gateway task that took its route owes the answer, or another request with its id has failed and is about to clear it. |
| PlaybackWaiters.QuietMeansEmpty | speechmeshd/src/agent.rs:237-272 | In every run, when all requests have returned and no connection is busy, no waiter is left. |
| PlaybackWaiters.InvariantOfRuns | speechmeshd/src/agent.rs:249-272 | Every run keeps: each waiter is some request's business, answers and results agree one to one, replies name their request's agent and counts, gateway tasks hold the status they read last. |
| PlaybackRoutes.RouteHasRequest | speechmeshd/src/agent.rs:369-421 | In every run, with any reuse of ids, each route belongs to a request of its id that inserted it, named its agent and has not removed it. |
| PlaybackRoutes.RoutesLeftBehind | speechmeshd/src/server.rs:250-267 | In every run a route whose requests have all returned was left by one that followed its script to the end and put the finish on the connection the agent is registered with now. |
| PlaybackReports.OrderlyIdsReport | speechmeshd/src/bin/speechmesh_agent/runtime.rs:304-493 | For an id used in order: a living device that has taken a command of the current request since greeted is at work on it or has reported its end, and while the route is there the gateway has not dealt with such a report. |
| PlaybackReports.DrainedRouteWasIgnored | speechmeshd/src/agent.rs:548-577 | For an id used in order: when its requests have returned and its agent's device and gateway task have dealt with everything, a route that is left means that all its commands were ahead of the greeting. |
| PlaybackReports.GreetingComesTooLate | speechmeshd/src/bin/speechmesh_agent/runtime.rs:224-249 | That case occurs for any audio: a request routed before the greeting is ignored, times out and leaves its route. |
| PlaybackRuns.OrderlyIdsStayOk | speechmeshd/src/agent.rs:384-483 | Every run in which an id is used in order keeps, for that id: its route is its current request's, every connection carries since the submission exactly what that request put there, reports since then are exact, and a completed answer rests on one. |
| PlaybackRuns.EventKeepsId | speechmeshd/src/agent.rs:548-577 | Every event but a submission of audio with the id keeps that, whatever request, connection or agent it is about. |
| PlaybackRuns.SettledIsQuiet | speechmeshd/src/server.rs:222-281 | Once all requests of the id are accepted, or rejected with nothing sent, no connection has a command, a player or an unread report of it under way and no route is left. |
| PlaybackRuns.EndsPinConnection | speechmeshd/src/agent.rs:423-483 | A connection that carried the first and the last message of a request carried all of them, and belongs to the agent that was selected. |
| PlaybackRequests.RequestsAreSubmissions | speechmeshd/src/server.rs:206-221 | In any run the r-th request keeps the id, payload and chunk size of the r-th submission, and is rejected at once, with nothing sent, when that carries no audio. |
| PlaybackTheorems.ScriptIsHeard | speechmeshd/src/server.rs:243-255 | A device that decodes the chunk messages of a request in order hears exactly the payload. |
| DeviceAgent.TaskTracker.HandleGatewayMessage | speechmeshd/src/bin/speechmesh_agent/runtime.rs:304-493 | The tracker's fields and the messages sent change as the transition function of the device says, on start, chunk and finish, for every outcome of spawning, writing and exiting. |
| DeviceAgent.TaskTracker.FinishFailedTask | speechmeshd/src/bin/speechmesh_agent/runtime.rs:687-708 | The entry goes, its player is killed with what it had received, one Failed is sent. |
| DeviceAgent.TaskTracker.AbortAllPlaybackTasks | speechmeshd/src/bin/speechmesh_agent/runtime.rs:710-718 | Every active player is killed, the active map is empty, failed starts and sent messages stay. |
| DeviceAgent.ActiveAndFailedAreDisjoint | speechmeshd/src/bin/speechmesh_agent/runtime.rs:304-493 | In every run active ids and failed starts are disjoint, and each active id has a live player that received as many bytes as counted. |
| DeviceAgent.FailedStartReportsOnce | speechmeshd/src/bin/speechmesh_agent/runtime.rs:349-372 | Interleaved with anything else, an id whose start failed gets exactly one status, Failed, no player, and no trace after its finish. |
| DeviceAgent.HandleIsLocal | speechmeshd/src/bin/speechmesh_agent/runtime.rs:304-493 | One message reports at most one status, for its own id, and leaves every other id alone. |
| DeviceRegistry.AgentRegistry.RemoveAgentTasksLocked | device/src/registry.rs:158-180 | Removes the agent and all and only its routes, and returns each of those ids once. |
| DeviceRegistry.AgentRegistry.RegisterAgent | device/src/registry.rs:196-212 | A replacing registration orphans exactly the old one's routes; a first registration orphans none. |
| DeviceRegistry.AgentRegistry.RegisterTask | device/src/registry.rs:277-285 | Succeeds exactly for an unknown id, and changes nothing otherwise. |
| DeviceRegistry.AgentRegistry.SelectSpeakerAgent | device/src/registry.rs:230-263 | Finds a registered agent that matches kind, capability, device and agent id, and none only when none matches. |
| DeviceRegistry.RemovalPartitionsTasks | device/src/registry.rs:158-180 | Removed and kept routes are disjoint and together the table; kept routes are unaltered. |
| SessionRoutes.RemovalPartitionsSessions | speechmeshd/src/agent.rs:125-146 | The same for session routes. |
| SessionRoutes.GatewayRegistry.RemoveOrphanedSessions | speechmeshd/src/agent.rs:125-146 | Takes out all and only the routes naming the agent, each once. |
| SessionRoutes.GatewayRegistry.RegisterAgent | speechmeshd/src/agent.rs:159-199 | A registration takes out all the agent's session routes and tells each session one start error, or Error and Ended; one that replaces another also takes out its task routes and answers each of their waiters once with Disconnected; nobody else is told anything, and `Valid()` is kept. |
| SessionRoutes.GatewayRegistry.UnregisterAgent | speechmeshd/src/agent.rs:201-210 | The same for an agent that leaves, sessions and tasks always. |
| SessionRoutes.GatewayRegistry.StartPlayAudio | speechmeshd/src/server.rs:222-241 | A play_audio start succeeds with a matching speaker agent, an id without a route and a delivered start command, and then has a fresh waiter and the route; each error is told apart, leaves the routes as they were and the id without any waiter. |
| SessionRoutes.GatewayRegistry.StartStream | speechmeshd/src/agent.rs:687-714 | A new session is routed with its start unanswered; when the start command cannot be delivered it is refused once and its route is gone; no other session is told anything. |
| SessionRoutes.GatewayRegistry.FinishAgentRemoval | speechmeshd/src/agent.rs:212-247 | Each orphaned session gets one start error, or Error followed by Ended; each orphaned id's waiter gets one Disconnected; nobody else is told anything. |
| SessionRoutes.GatewayRegistry.ResolveTaskWaiter | speechmeshd/src/agent.rs:264-272 | Takes the waiter out and answers it, and does nothing for an id without one. |
| SessionRoutes.GatewayRegistry.MarkSessionStarted | speechmeshd/src/agent.rs:314-324 | Answers the start if it was not answered before, and keeps the route. |
| SessionRoutes.GatewayRegistry.EndSession | speechmeshd/src/agent.rs:326-367 | A route taken out by a failed start or by the agent's end is told a start error if unanswered, else its last events; a route already gone is told nothing. |
| SessionRoutes.GatewayRegistry.Farewell | speechmeshd/src/agent.rs:217-236 | A removed route gets one start error if its start is unanswered, else its last events, and nobody else anything. |
| SessionRoutes.GatewayRegistry.AnswerOrphanedTasks | speechmeshd/src/agent.rs:237-246 | The waiters of the listed ids, and only those, are taken out and each told Disconnected once. |
| SessionRoutes.GatewayRegistry.RouteEvent | speechmeshd/src/agent.rs:347-355 | An event reaches its session if and only if its route is there. |
| SessionRoutes.ResolveEachOnce | speechmeshd/src/agent.rs:237-246 | Over any list of orphaned ids, repeated or not, a waiter gets exactly one Disconnected if its id is listed and none otherwise. |
| SessionRoutes.TellEachOnce | speechmeshd/src/agent.rs:217-236 | Over any list of distinct orphaned sessions each gets exactly its own farewell. |
| SessionProtocol.OneAnswerOneEnd | speechmeshd/src/agent.rs:314-367 | In every interleaving a start is answered at most once, the registry sends Ended at most once, and never for a session whose start was refused. |
| SessionProtocol.NoSessionStranded | speechmeshd/src/agent.rs:309-367 | A registered session is in the table or about to be told, or else, and only then, it is over: refused and told nothing else by the registry, or answered and told its last events. |
| SessionProtocol.RemovalTellsEachOnce | speechmeshd/src/agent.rs:159-236 | After an agent removal and any further events each of its sessions is out of the table and either still held with its route and cause, or has been told by the registry exactly one start error and no event, or exactly one Error and then one Ended. |
| SessionProtocol.RemovalSparesOthers | speechmeshd/src/agent.rs:125-146 | The routes of other agents' sessions stay as they are. |
| SessionProtocol.SuccessMeansStarted | speechmeshd/src/agent.rs:722-749 | A `start_stream` that returns a session has one whose start was acknowledged, once; when it is over it was told Ended exactly once. |
| SessionProtocol.EndedDespiteErrorExactly | speechmeshd/src/agent.rs:722-749 | A `start_stream` that returned an error: its session is out of the table, and once it is over it was told Ended if and only if its start was acknowledged before the caller failed. |
| SessionProtocol.LateAcknowledgementHappens | speechmeshd/src/agent.rs:739-749 | That case occurs: a run whose caller got an error while the session's start was acknowledged and it was told Error and Ended. |
| SessionProtocol.LastWordsReachRefused | speechmeshd/src/agent.rs:347-355 | A run in which an event looked up before an agent removal reaches a session whose start was refused meanwhile. |
| SessionProtocol.InvariantOfRuns | speechmeshd/src/agent.rs:485-541 | Every interleaving of messages, timeouts, lookups and removals keeps each session live, held or settled, and each returned caller right about it. |
| MiniMaxSession.Loop.RunSession | bridges/src/tts/minimax_http.rs:510-741 | The loop's variables and log after any inputs are those of the session function. |
| MiniMaxSession.Loop.ClientCommand | bridges/src/tts/minimax_http.rs:656-737 | Append, commit, stop and hang-up change the variables as the session function says, in both input modes. |
| MiniMaxSession.Loop.UpstreamMessage | bridges/src/tts/minimax_http.rs:532-655 | The same for every kind of upstream message. |
| MiniMaxSession.Loop.TaskStartedEvent | bridges/src/tts/minimax_http.rs:563-588 | The pending queue is drained in order, one task_continue each, then the finish if already committed. |
| MiniMaxSession.Loop.AudioPayload | bridges/src/tts/minimax_http.rs:595-627 | A payload is trimmed, counted, decoded and passed on, or ends the session. |
| MiniMaxSession.EndedStays | bridges/src/tts/minimax_http.rs:530-741 | A session that has ended ignores every further input. |
| MiniMaxTheorems.TextIsConserved | bridges/src/tts/minimax_http.rs:510-741 | For all inputs, until a write fails, text sent followed by the pending queue is exactly what the client is owed; after a failure it is a prefix. |
| MiniMaxTheorems.BufferedTextExactly | bridges/src/tts/minimax_http.rs:692-722 | After a commit in buffered mode, sent text and queue are exactly the trimmed buffer of the first commit if and only if there was one commit. |
| MiniMaxTheorems.SecondCommitRepeats | bridges/src/tts/minimax_http.rs:673-711 | The failing case occurs for any text: appended once and committed twice it is owed and queued twice. |
| MiniMaxTheorems.StartsInOrder | bridges/src/tts/minimax_http.rs:515-528 | task_start goes out at most once, and no task_continue before task_started. |
| MiniMaxTheorems.FinishIsLastExactly | bridges/src/tts/minimax_http.rs:563-588 | Without a stop, task_finish goes out once and last exactly when nothing that triggers text or a finish arrives after both commit and task_started. |
| MiniMaxTheorems.LateTextFollowsFinish | bridges/src/tts/minimax_http.rs:656-672 | The failing case occurs for any texts: appended after the commit of a started streaming session, a text goes out behind the finish. |
| MiniMaxTheorems.AudioHasNoGaps | bridges/src/tts/minimax_http.rs:595-640 | Audio chunks are numbered 1, 2, 3, ... and only the first names the format. |
| MiniMaxAudio.DecodeHex | bridges/src/tts/mod.rs:299-315 | The loop over pairs decodes the text without its white space, or fails. |
| MiniMaxAudio.HexRoundTrip | bridges/src/tts/mod.rs:277-297 | Every non-empty byte string survives its hexadecimal spelling (section 8 of RFC 4648), in either case. |
| MiniMaxAudio.Base64RoundTripExactly | bridges/src/tts/mod.rs:277-297 | Every non-empty byte string survives base64 if and only if the text is not made only of hexadecimal digits. |
| MiniMaxAudio.HexLookalikeIsMisread | bridges/src/tts/mod.rs:277-297 | Such bytes exist: three bytes whose base64 is "abcd" are decoded to two others. |
| MiniMaxAudio.DecodedIsNeverEmpty | bridges/src/tts/mod.rs:277-315 | Decoding never succeeds with an empty result. |
| Base64.RoundTrip | speechmeshd/src/server.rs:213-215 | Decoding undoes encoding on every byte string; the text has four characters for each started triple. |
| Base64.DecodeIsCanonical | speechmeshd/src/bin/speechmesh_agent/runtime.rs:377-388 | The strict decoder accepts nothing but encodings. |
| Text.TrimSplits | bridges/src/tts/mod.rs:280-285 | Trimming removes white space at both ends and nothing else. |
| TtsPipeline.EmitAudioChunks | bridges/src/tts/mod.rs:244-274 | Empty audio is an error; otherwise the chunk events are sent in order until the receiver is gone, and success means all were. |
| TtsPipeline.PumpEvents | speechmeshd/src/server.rs:710-773 | The pump's loop sends what the pump function says, cut off where the client's channel closes. |
| TtsPipeline.PumpIsExact | speechmeshd/src/server.rs:710-773 | For every event stream the deltas carry exactly its audio, and audio.done states how many chunks and bytes were sent and is followed by session.ended and nothing else. |
| TtsPipeline.Collector.Append | sdks/swift/Sources/SpeechMeshSwift/TTSSupport.swift:23-28 | Appends the decoded bytes and keeps the first format; a delta that does not decode leaves the data as it was. |
| TtsPipeline.PipelineRoundTrip | bridges/src/tts/mod.rs:244-274 | Split, pumped and collected, non-empty audio comes back with its format, in ceil(length / size) deltas numbered from 1 of which exactly the last is final, with matching totals. |
| Common.ChunksRoundTrip | bridges/src/tts/mod.rs:256-257 | Splitting loses nothing and yields the ceiling count of non-empty parts no larger than the size. |
| AsrPump.PumpEvents | speechmeshd/src/server.rs:561-640 | The pump's loop sends what the pump function says, cut off where the client's channel closes. |
| AsrPump.ResultsAreNumbered | speechmeshd/src/server.rs:561-625 | Every event with a text becomes one result, in order, with revisions 1 to n, final exactly for a final transcript, with the delta from the text before and the transcript's words, first start and last end. |
| AsrPump.SequenceCountsEvents | speechmeshd/src/server.rs:561-640 | Every event is sent as one message, and the sequence number of a result counts all of them. |
| AsrPump.DeltaLaw | speechmeshd/src/server.rs:952-963 | No delta exactly when the text is unchanged; otherwise the text is the previous one plus the delta, or the delta alone; appending gives the text if and only if it extends the previous one. |
| AsrPump.JoinedDeltasExactly | speechmeshd/src/server.rs:561-640 | For every event stream the joined deltas are the current text after every result if and only if each text extends the one before. |
| AsrMiniMax.Session.Run | bridges/src/asr/minimax_http.rs:87-166 | The loop's variables, events and transcription requests after any commands are those of the step function. |
| AsrMiniMax.Session.PushChunk | bridges/src/asr/minimax_http.rs:97-132 | A push buffers the chunk and, when due, transcribes everything and sends a partial or an error. |
| AsrMiniMax.Session.CommitAudio | bridges/src/asr/minimax_http.rs:133-155 | A commit transcribes everything and sends the final transcript and the end, or an error. |
| AsrMiniMax.PartialsAreSpaced | bridges/src/asr/minimax_http.rs:98-122 | For every command sequence and every transcriber, partials times the trigger size is at most the bytes pushed. |
| AsrMiniMax.EventsAreWellShaped | bridges/src/asr/minimax_http.rs:95-164 | Partials come first, none empty and no two in a row alike; at most one ending follows. |
| AsrMiniMax.CommitTranscribesEverything | bridges/src/asr/minimax_http.rs:133-155 | A commit transcribes exactly the concatenation of all pushed chunks, once, and sends its outcome. |
| AsrMiniMax.PartialWhenDue | bridges/src/asr/minimax_http.rs:97-122 | A push transcribes exactly when enough audio has come since the last partial, and sends a partial exactly when the trimmed text is new and not blank. |
| AsrMiniMax.TriggerIsPositiveExactly | bridges/src/asr/mod.rs:240-257 | The trigger size is positive if and only if it is configured, or not inferred from PCM without a rate or channels. |
| ClientConnection.Connection.HandleFrame | speechmeshd/src/server.rs:502-838 | Held session, bridges and replies after a frame are those of the step function, for every outcome of the bridge call and the client's channel. |
| ClientConnection.Connection.StartSession | speechmeshd/src/server.rs:686-800 | A start opens and holds a bridge session, or leaves what the failing step leaves, with the right error. |
| ClientConnection.Connection.PassCommand | speechmeshd/src/server.rs:840-880 | A command goes to the held bridge if id and domain match and the bridge accepts it; a stop lets go; otherwise the right error. |
| ClientConnection.Connection.HandleClientWebsocket | speechmeshd/src/server.rs:367-463 | The loop handles every frame up to a close or read error, and a close stops the held session. |
| ConnectionTheorems.StreamIsProjection | speechmeshd/src/server.rs:367-463 | The commands each bridge accepts are exactly the in-order projection of the frames after its start that match its id and domain, through the stop it accepted; a start that could not be reported gets none. |
| ConnectionTheorems.NothingAfterStop | speechmeshd/src/server.rs:810-823 | A stop in that projection is its last command, and it is there exactly when the session was ended. |
| ConnectionTheorems.OneSessionAtATime | speechmeshd/src/server.rs:546-550 | Of two sessions that came to be held, the first was ended before the second began; never are two held. |
| ConnectionTheorems.HeldExactly | speechmeshd/src/server.rs:542-550 | A session is held exactly when some opening of the frames came to be held and no frame since ended it. |
| ConnectionTheorems.StartedAreHeld | speechmeshd/src/server.rs:542-666 | Over a whole connection the client is told "session started" for exactly the sessions that came to be held, once each, in order. |
| ConnectionTheorems.StartAcceptedExactly | speechmeshd/src/server.rs:542-666 | After any frames a start is accepted if and only if each session that came to be held before was ended by them, its domain is served, its bridge session opens with events and can be reported; otherwise at most an error is sent. |
| ConnectionTheorems.DisconnectStops | speechmeshd/src/server.rs:459-463 | At the disconnect exactly the held bridge, if any, is told to stop, and nothing stays held. |
| ProviderState.StateFile.InstallProvider | speechmeshd/src/providers.rs:215-253 | The file becomes the edited, sorted list; fails exactly for an id the catalog lacks; reports Updated exactly when the id was there. |
| ProviderState.StateFile.UninstallProvider | speechmeshd/src/providers.rs:255-273 | The file loses the entry; fails exactly for an id that is not installed; returns the removed entry. |
| ProviderState.StateFile.SetProviderEnabled | speechmeshd/src/providers.rs:275-296 | The flag is set; fails exactly for an id that is not installed; reports whether the flag changed. |
| ProviderState.SaveSorts | speechmeshd/src/providers.rs:205-213 | Saving a list without repeated ids makes it strictly sorted by id and keeps its content. |
| ProviderState.EditRefines | speechmeshd/src/providers.rs:215-296 | On a list without repeated ids every operation does what the map specification does, or fails where that changes nothing. |
| ProviderState.ListRefinesMap | speechmeshd/src/providers.rs:205-296 | After any operations from an absent file the list is strictly sorted by id, without duplicates, and represents the specification's map. |
| ProviderState.SortedListIsUnique | speechmeshd/src/providers.rs:205-213 | A strictly sorted list is determined by the map it represents. |
| ProviderState.ReinstallKeeps | speechmeshd/src/providers.rs:235-246 | Reinstalling after any operations keeps the first install time, and the flag unless overridden. |
| Order.SortedHead | app/src/main.rs:763-767 | A stable sort puts a least element first, the first listed of its equals. |
| SemVer.VersionTotalOrder | app/src/main.rs:804-809 | Versions, build metadata included, are totally ordered. |
| SemVer.OrderRefinesPrecedence | app/src/main.rs:893-911 | That order is the precedence of section 11 of Semantic Versioning 2.0.0 with build metadata breaking its ties. |
| ReleaseSelection.SelectManifestRelease | app/src/main.rs:720-797 | Fails on a foreign schema or without a match exactly, or when the sort panics, which it may only with an inconsistent comparison; otherwise resolves a matching release, and when versions compare consistently the newest, first listed among equals. |
| ReleaseSelection.ComparableExactly | app/src/main.rs:804-809 | The matching versions compare consistently if and only if no version that does not parse lies, as text, between two that do and are ordered the other way. |
| ReleaseSelection.UniformVersionsCompare | app/src/main.rs:804-809 | In particular when all matching versions parse, or none does. |
| ReleaseSelection.ManifestWithoutNewest | app/src/main.rs:763-767 | There is a manifest with three matching releases none of which is newest. |
| ReleaseSelection.MixedVersionsCanCircle | app/src/main.rs:804-809 | Its versions compare in a circle. |
| ReleaseSelection.NewestIsUnique | app/src/main.rs:763-767 | At most one release is the newest and first listed, so a consistent comparison determines the choice. |
| ReleaseSelection.FindAssetIsFirst | app/src/main.rs:754-758 | The asset taken is the first for the target, and none only when there is none. |
| ReplaceBinary.Directory.ReplaceBinary | app/src/main.rs:838-880 | The directory goes through the states listed by the specification, for every combination of failures. |
| ReplaceBinary.OldBinarySurvives | app/src/main.rs:838-872 | At every point the old bytes are at the target or in the backup; success and each failure leave what they should; only a failed rollback leaves no target. |
| ReplaceBinary.OthersUntouched | app/src/main.rs:838-872 | No file but the target, the temporary file and the backup is touched. |
| AutoUpdate.AutoUpdater.ExecuteSelfUpdate | app/src/main.rs:601-667 | Files and outcome for every version, digest and failure, without force and dry run. |
| AutoUpdate.AutoUpdater.RunCycle | app/src/main.rs:484-547 | Files and report of one cycle: event, failure flag, applied flag and the release reported. |
| AutoUpdate.AutoUpdater.RunLoop | app/src/main.rs:449-482 | The loop runs cycles until one is applied, and only then does the new binary run. |
| AutoUpdateTheorems.InstallIsNewerAndChecked | app/src/main.rs:601-648 | A binary put in place is strictly newer than the running version and has the stated digest; the replaced one is the backup. |
| AutoUpdateTheorems.InstalledVersionIncreases | app/src/main.rs:449-547 | Over any stretch of a run in which no restart failed after a replacement: if any cycle put a binary in place, the installed version is strictly newer afterwards than before, never the same; if none did, the same binary is installed, or it is gone. |
| AutoUpdateTheorems.NextInstallIsNewerExactly | app/src/main.rs:897-911 | From a state, every possible next install is newer than what is installed if and only if that is not newer than what is running. |
| AutoUpdateTheorems.RunsAdvanceExactlyWithoutServiceManager | app/src/main.rs:642-648 | Every binary that any run from a state in sync puts in place is strictly newer than the installed one if and only if no service manager is asked to restart. |
| Wav.EncodePcmS16LeWav | bridges/src/asr/mod.rs:260-298 | Appends header, format and data chunk, or fails exactly on the checked overflows. |
| Wav.RiffSizeNeverOverflows | bridges/src/asr/mod.rs:265-283 | The length guard makes the RIFF size error unreachable; writing succeeds exactly when all sizes fit. |
| Wav.ReadWav | sdks/go/examples/stream_asr/main.go:119-184 | The reader terminates on every input with the result of the chunk scan. |
| Wav.UnknownChunkIsIgnoredExactly | sdks/go/examples/stream_asr/main.go:119-184 | In a file under 4 GiB with odd chunks padded, inserting a non-empty chunk that is neither fmt nor data at a chunk boundary leaves the result unchanged if and only if the file stays under 44 bytes even so, or it has 44 bytes without it and either its header is not RIFF/WAVE or the boundary is not the end behind an empty chunk the reader gets to. |
| Wav.ScanFile | sdks/go/examples/stream_asr/main.go:138-172 | Over a list of well-formed chunks the reader does exactly what the chunks do one after the other, then goes on with what follows. |
| Wav.EmptyLastChunkMatters | sdks/go/examples/stream_asr/main.go:147-153 | The first noticed case occurs for any audio: in a file that ends with an empty chunk it is an end-of-file error, and read back exactly once a chunk is inserted behind. |
| Wav.ShortFileMatters | sdks/go/examples/stream_asr/main.go:119-127 | The second noticed case occurs: a header and a format chunk are too small to be read, and with a chunk inserted they are a file without data. |
| Wav.WriterReaderRoundTrip | sdks/go/examples/stream_asr/main.go:119-184 | What the writer wrote is read back as the same samples, rate and channel count if and only if there are samples and neither rate nor channels is zero. |

## Left out

- Websocket, TCP, HTTP and process plumbing, JSON encoding, logging, heartbeats and ping replies to agents: foreign calls; channels are FIFO logs, players and transcribers arbitrary outcomes.
- The shared-secret check at agent registration, and the texts of messages and errors.
- `forward_commands_to_agent` (speechmeshd/src/agent.rs:753-790): it can send a second Ended beside the registry's, so the counts of `SessionProtocol` are of what the registry sends.
- The selection policy of speaker agents inside the playback machine: the machine selects any registered agent, or none; the filter is `DeviceRegistry.AgentRegistry.SelectSpeakerAgent`.
- Agents that report on ids they were never given: statuses come from the modelled tracker only.
- The numbers inside a Finished status are carried in its message text by the source; the model carries them as numbers.
- ReleaseSelection.SelectManifestRelease: promises only some matching release, or a panic, when versions compare inconsistently, because the standard library leaves both open for such a sort; notes and publication date are copied fields.
- ProviderState.StateFile.InstallProvider: a catalog or state file that cannot be read, parsed or written is not modelled; description, install metadata and bridge are one copied field.
- AutoUpdate.AutoUpdater.ExecuteSelfUpdate: `--force`, `--dry-run` and a direct asset URL are not modelled, because the update loop never uses them; a failure to find the own executable counts as a failed resolution.
- MiniMaxSession.Loop.RunSession: building the request and the provider options; an option named `text` would overwrite the text of task_start (bridges/src/tts/minimax_http.rs:765-769).
- Version parsing, SHA-256 and the version a binary reports: parameters of the model.
- Composite provider selection, device endpoint routing, client SDK request loops, command-line handling, the config reader, iOS and macOS code, scripts: filters, first matches and platform code that would only add easy members.
