# sshole: a verified model of the hub, the agent's dial-back and their registry

sshole lets an SSH client reach a machine that has no open port. An *agent* on that machine keeps a control
websocket to a *hub*. The hub listens on one port per agent. When an SSH connection comes in, the hub creates
a pending session, sends OPEN with the session's ID on the agent's control connection, and the agent dials
`/tunnel`, writes a 24-byte handshake frame, and is bound to the session. Two goroutines then copy bytes
between the SSH connection and the tunnel until a once-only cleanup runs. A `/tunnel` request whose ID is not
pending is an *entry* client's: it creates an entry session, which a waiter splices with the agent's tunnel.

This project models that logic and proves what holds of it in every interleaving.

* `Handshake.dfy`: session IDs, their 16 bytes, the frame, its validator; as methods over arrays and buffers.
* `PendingHeap.dfy`, `AgentBook.dfy`: the hub's critical sections as functions on values.
* `HubObject.dfy`: the same sections carried out in place by a class `Hub` on its maps, with connection and
  session objects; each method is proved equal to its function. The mapping file is a cell.
* `Registry.dfy`, `RegistryTheorems.dfy`, `RegistryHistory.dfy`: `/agent` handlers, the mapping file and restarts
  as a transition system; port allocation, persistence, the control connection, and which handlers are accepted
  and which ports are listened on, over whole runs.
* `Protocol.dfy`: the session protocol as a transition system. Threads have program counters; a step is one
  section under the hub's mutex, one read of a field outside it, or one connection event.
* `ProtocolInvariant.dfy`, `ProtocolOwnership.dfy`: what every step keeps, by rely and guarantee, and which
  goroutine is responsible for a session.
* `SessionTheorems.dfy`: safety over whole runs with arbitrary clients. `SessionCleanups.dfy`: which cleanups of
  an ID have an effect. `ThreadHistory.dfy`: how a goroutine got to its point.
* `SessionStates.dfy`, `Requests.dfy`, `Closings.dfy`, `OpenMessages.dfy`, `Dials.dfy`, `Pairs.dfy`: the hub's map,
  session states, closed connections, messages, requests and pairs as exact functions of the history.
* `Admission.dfy`, `Watchers.dfy`, `Waiters.dfy`: when onSSHConn, the watcher and the waiter do which of the things
  they can do. `Orphans.dfy`: which session a cleanup ends, and exactly which requests leave a session listed for
  good; `OrphanExample.dfy` is such a run.
* `TunnelHistory.dfy`, `EntryTheorems.dfy`: where a session's tunnel came from, and what becomes of an entry
  client. `EntryTunnels.dfy`: exactly which websockets a hub at rest has left open. `EntryExamples.dfy`: runs in
  which two clients choose one ID, one in which nobody closes a tunnel, one in which a splice outlives its watcher.
* `ComposedSystem.dfy`: the hub together with real agents: no mismatch, nothing left behind at rest.
  `Drain.dfy`, `ComesToRest.dfy`: rest can be reached from everywhere, and how long any schedule can put it off.
  `DialBackExample.dfy`: runs of the composed system, to forwarding and on to rest, and to a refused dial-back.
* `Reconnect.dfy`, `AuthorizedKeys.dfy`: the agent's reconnect loop and its key file.

## Assumptions

* `uuid.New` returns an ID that no session, message or thread holds (`Protocol.Fresh`). Nothing is assumed of
  IDs that clients choose. For a hub to come to rest there must be such an ID for every SSH connection that is
  on its way in (`ComesToRest.Pool`).
* The SHA-256 digest is an arbitrary function, a parameter of every definition that needs it.
* In a string of the codec each char stands for one byte; the key file is a string of characters.
* Reading or writing one session or agent field is one step, and so is the snapshot that `saveMapping` takes.
* The session protocol runs in one hub process; restarts are part of the registry's transition system.

Where the code differs from its documentation, the model follows the code. `docs/design.detailed.md` section
4.6.1 checks `X-Agent` before binding; the code binds first (pkg/hub/tunnel_ws.go:97-107), so a session that
another agent's handler reaches stays BOUND with no forwarder (`Orphans.OrphansOnlyByStrangers`). The
same document marks a session OPEN_SENT before it sends OPEN; the code does so afterwards
(pkg/hub/hub.go:204-212), so a dial-back that is quick enough is refused (`SessionTheorems.BindGuard`,
`DialBackExample.EarlyDialBackRefused`). Its
state diagram has no edge from BOUND to TIMEOUT or from INIT to CLOSED; both exist
(`SessionTheorems.StateProgress`). It has ADD_KNOWN_HOST write `~/.ssh/known_hosts`; the code writes
`~/.sshole/authorized_keys`.

## Model

| member | source | states |
|---|---|---|
| Handshake.DecodeEncode | pkg/tunnel/handshake.go:33-38 | every byte string survives being written as hex and read back |
| Handshake.SessionIDTo16Bytes | pkg/tunnel/handshake.go:30-57 | the fast path, the strip-then-decode path and the hash fallback fill the array with the ID's 16 bytes |
| Handshake.FastPathRedundant | pkg/tunnel/handshake.go:32-51 | for every ID the undashed fast path changes nothing: 32 hex digits up to dashes are decoded, anything else is hashed |
| Handshake.SameBytesIff | pkg/tunnel/handshake.go:28-57 | two UUID-like IDs name the same 16 bytes exactly when they agree up to dashes and letter case |
| Handshake.UuidRoundTrip | pkg/tunnel/handshake.go:28-57 | the canonical text of 16 bytes maps back to those bytes |
| Handshake.UuidTextOnto | pkg/tunnel/handshake.go:28-57 | every canonical text is the text of its own bytes, so texts and 16-byte values correspond one to one |
| Handshake.HeaderlessId | pkg/hub/tunnel_ws.go:67-69 | the ID read from a frame without header maps back to the frame's bytes, and is never canonical UUID text |
| Handshake.BuildHandshake | pkg/tunnel/handshake.go:60-69 | the buffer filled by the two copies is the magic followed by the ID's 16 bytes |
| Handshake.EqualBytes | pkg/tunnel/handshake.go:106-116 | the index loop decides equality of two byte strings of any lengths |
| Handshake.ValidateHandshake | pkg/tunnel/handshake.go:72-84 | a frame is accepted for an ID if and only if it is byte for byte the frame built from it; which error is returned when it is not |
| Handshake.FrameCross | pkg/tunnel/handshake.go:60-84 | one ID's frame passes for another exactly when both name the same bytes |
| Handshake.UuidFramesDistinct | pkg/tunnel/handshake.go:60-84 | distinct canonical UUIDs never validate each other's frame |
| AgentBook.FirstFree | pkg/hub/hub.go:334-342 | the unbounded search ends at the least unused port from 10000 on, at most as far up as there are used ports |
| AgentBook.FirstFreeInRange | pkg/hub/hub.go:334-342 | the port found is a TCP port exactly while some port from 10000 to 65535 is unused |
| AgentBook.InverseUnique | pkg/hub/hub.go:85-101 | the port index of a mapping is determined by the mapping, whatever order it is built in |
| AgentBook.LoadingUnique | pkg/hub/hub.go:85-101 | so are all the hub's tables after a load |
| HubObject.Hub.constructor | pkg/hub/hub.go:68-77 | a new hub has no sessions, agents, ports or listeners |
| HubObject.Hub.Insert | pkg/hub/hub.go:200-202 | the section enters the session in the map, replacing any other under the same ID, and changes nothing else |
| HubObject.Hub.MarkOpenSent | pkg/hub/hub.go:210-212 | the section writes the state of the session object held, listed or not |
| HubObject.Hub.CloseOwned | pkg/hub/hub.go:254-259 | exactly the session's SSH connection and tunnel, if set, are closed |
| HubObject.Hub.CleanupPending | pkg/hub/hub.go:249-263 | a listed session gets its final state, its connections are closed and it leaves the map; an unlisted ID changes nothing |
| HubObject.Hub.BindTunnel | pkg/hub/hub.go:265-283 | session not found exactly for an unlisted ID, duplicate tunnel exactly for a session that is not OPEN_SENT or has a tunnel, and otherwise that session, BOUND and with this tunnel |
| HubObject.Hub.BindEntry | pkg/hub/tunnel_ws.go:91-94 | an entry session is bound whatever its state |
| HubObject.Hub.FindAvailablePort | pkg/hub/hub.go:334-342 | the loop terminates with the first free port |
| HubObject.Hub.RegisterAgent | pkg/hub/agent_ws.go:35-52 | a fresh AgentState on the first free port, in both tables even when the listener fails to open |
| HubObject.Hub.TakeOver | pkg/hub/agent_ws.go:75-79 | the connection becomes the control connection of the agent's current AgentState only |
| HubObject.Hub.Release | pkg/hub/agent_ws.go:96-101 | a handler clears the control connection only if it is still its own |
| HubObject.Hub.LoadEntry | pkg/hub/hub.go:91-98 | one file entry is entered, or reported as a duplicate port |
| HubObject.Hub.LoadMapping | pkg/hub/hub.go:85-101 | for every iteration order, loading succeeds exactly when no two agents share a port, and then the tables are the file's |
| HubObject.Hub.StartPortListeners | pkg/hub/hub.go:150-161 | succeeds exactly when every port can be opened; each listener captures the agent the port index names |
| HubObject.Hub.Startup | pkg/hub/hub.go:79-110 | a hub process started from a file succeeds exactly on a loadable file with ports free, and is then the state the registry's runs start in |
| HubObject.Hub.Snapshot | pkg/hub/hub.go:345-351 | the map handed to SaveMapping holds every agent with its own port |
| HubObject.MappingFile.Load | pkg/hub/mapping.go:16-41 | a missing file is created empty and loads as such; a damaged one fails and stays |
| AgentBook.SaveGivesFileBack | pkg/hub/mapping.go:16-53 | a hub that starts on a file with distinct ports and saves writes that file again |
| AgentBook.LoadGivesPortsBack | pkg/hub/hub.go:85-101 | what a hub saves is loadable and restores its port index if and only if that index holds each agent's one port and nothing else |
| Registry.StepInv | pkg/hub/agent_ws.go:14-105 | every step of every handler keeps the port index in agreement with agents, file, listeners and pending snapshots, and takes no port away |
| RegistryTheorems.PortIndexAgrees | pkg/hub/agent_ws.go:30-61 | in every reachable state, same-name races and stale overlapping saves included, every agent, file entry and listener agrees with the port index |
| RegistryTheorems.ReloadFailsOnlyWhenCorrupt | pkg/hub/hub.go:85-101 | a restart never meets the duplicate-port error: it fails exactly on a file that cannot be parsed |
| RegistryTheorems.PortsOnlyGrow | pkg/hub/agent_ws.go:35-52 | while one process runs no port is dropped or given to another agent |
| RegistryTheorems.FixedStepIff | pkg/hub/agent_ws.go:30-61 | an agent with a saved port keeps it over a step, restarts included, if and only if the step is neither an unchecked second insert of its name nor the write of a snapshot without it |
| RegistryTheorems.FixedUntilMoved | pkg/hub/agent_ws.go:30-61 | with no assumption on the schedule a saved port lasts until the first such step, and ends there |
| RegistryTheorems.AgentsAndPortsInverse | pkg/hub/agent_ws.go:33-61 | when first registrations of one name and saves do not overlap, agents and ports are inverse bijections |
| RegistryTheorems.FixedMapping | pkg/hub/agent_ws.go:33-61 | then, once a save covering an agent has completed, the agent keeps its port in every later state of every later hub process, and so does its entry in the file unless a failed write has damaged the file |
| RegistryTheorems.FileHasPortIff | pkg/hub/mapping.go:44-53 | after such a save the file has the agent's port exactly unless a later write has damaged the file and no save has completed since: the next save restores the entry |
| RegistryTheorems.DoubleRegistration | pkg/hub/agent_ws.go:30-41 | a run of two overlapping first registrations that moves a saved agent and leaves two ports on it: the assumption on registrations is needed |
| RegistryTheorems.StaleSave | pkg/hub/hub.go:344-351 | a run in which only two saves overlap: the older snapshot is written last, an agent that had been saved is unknown to the next hub process, and its port goes to the next agent that comes; the assumption on saves is needed |
| RegistryTheorems.LatestControlWins | pkg/hub/agent_ws.go:75-101 | in every state the control connection of an agent is that of the handler that took over last, if that handler has not run its release, and none otherwise |
| RegistryTheorems.ReplacedOnlyByOverlap | pkg/hub/agent_ws.go:30-41 | without overlapping first registrations no AgentState that is in use is ever replaced |
| RegistryHistory.AcceptedWhen | pkg/hub/agent_ws.go:30-66 | a handler asks for its upgrade only after it found its agent registered, or registered it with an open port, took a snapshot and completed a save |
| RegistryHistory.ReturnedWhen | pkg/hub/agent_ws.go:45-68 | a handler that has returned had its upgrade, or returned because the port could not be opened, the mapping not written, or the upgrade failed |
| RegistryHistory.ListenedIff | pkg/hub/agent_ws.go:35-55 | a port is taken exactly if it was in the file at the last start or a registration took it since, and listened on exactly if, in the second case, it could be opened |
| RegistryHistory.UnreachableAgent | pkg/hub/agent_ws.go:43-52 | a run after which an agent has a control connection and a port that nothing listens on |
| ProtocolInvariant.StepIsGood | pkg/hub/hub.go:179-313 | every step of every goroutine keeps the shared invariant and its own, starts others well, and stays within what the others rely on |
| ProtocolInvariant.PcStable | pkg/hub/hub.go:179-313 | no step of one goroutine spoils what another one knows between its check and its act |
| ProtocolInvariant.TraceInv | pkg/hub/tunnel_ws.go:79-146 | the invariant holds in every state of every run |
| ProtocolOwnership.TraceOwned | pkg/hub/hub.go:179-313 | in every state of every run, each live SSH-initiated session has a goroutine responsible for it that has not finished, or was bound by a handler of another agent |
| SessionTheorems.MapStateCorrespondence | pkg/hub/hub.go:189-263 | an SSH-initiated session is in the map exactly while INIT, OPEN_SENT or BOUND, and out of it its connections are closed |
| SessionTheorems.RemovedForever | pkg/hub/hub.go:249-263 | once out it stays out in the same final state, even when an entry session reuses its ID |
| SessionTheorems.StateProgress | pkg/hub/hub.go:191-283 | the six edges a session's state can take; its tunnel is written once, on OPEN_SENT to BOUND |
| SessionStates.StateIsLastWrite | pkg/hub/hub.go:191-283 | in every run the state of every session, of either kind, is what the last step that wrote it wrote: INIT on entry, OPEN_SENT after OPEN, BOUND with a tunnel, CLOSED by a handler or a forwarding pair, TIMEOUT by a watcher or a waiter |
| SessionStates.FinalStateIff | pkg/hub/hub.go:204-306 | an SSH-initiated session ends CLOSED if and only if its onSSHConn gives up after a failed send or its forwarding pair finishes, and TIMEOUT if and only if its watcher gives up |
| DialBackExample.ForwardingEndsClosed | pkg/hub/hub.go:290-297 | for every ID the hub may generate, a composed run through the three actions of the pair's cleanup, after which the session is CLOSED, unlisted, and both ends are closed |
| Watchers.TimeoutWasRead | pkg/hub/hub.go:231-247 | a watcher removes an ID only after it found a session listed and then read a state other than BOUND and CLOSED of it |
| Watchers.SettledIsLast | pkg/hub/hub.go:239-241 | a watcher that read BOUND or CLOSED takes no further step |
| Watchers.WatcherOutcome | pkg/hub/hub.go:231-247 | a watcher that has returned removed its ID if and only if it read such a state; otherwise it found no session, or read BOUND or CLOSED |
| EntryExamples.SplicedStays | pkg/hub/hub.go:231-247 | for every ID a client may choose, a composed run in which the client is spliced in time, its watcher fires, and nothing is closed |
| SessionTheorems.LaterRun | pkg/hub/session.go:10-33 | over any stretch of a run states only move forward, an SSH-initiated session's tunnel never changes, and what is closed stays closed |
| SessionTheorems.BindGuard | pkg/hub/hub.go:272-274 | the second test of the bind guard is redundant: a bind of an SSH-initiated session succeeds exactly in OPEN_SENT |
| Requests.NotFoundIff | pkg/hub/hub.go:268-271 | a bind is refused as session not found if and only if no session entered under its ID is uncleaned |
| Requests.DuplicateIff | pkg/hub/hub.go:272-274 | a bind of a listed session is refused as duplicate tunnel if and only if the session is not OPEN_SENT or was given a tunnel before |
| Requests.SshDuplicateIff | pkg/hub/hub.go:272-274 | for an SSH-initiated one that is: if and only if it is still INIT or an earlier request bound it |
| Requests.UpgradedWhenNamed | pkg/hub/tunnel_ws.go:15-37 | a tunnel request gets to its upgrade only if it named a registered agent |
| Requests.RefusedWhenNot | pkg/hub/tunnel_ws.go:15-37 | and is refused there if and only if it named none, or one that is not registered |
| Requests.ReadIdIff | pkg/hub/tunnel_ws.go:46-77 | without a header a binary frame of 24 bytes, and no other, gives an ID: the hex text of its last 16 bytes, which that ID names; with one, exactly the frame built from it gives it |
| Requests.JoinsOrCreates | pkg/hub/tunnel_ws.go:79-129 | a request joins the session entered last under its ID, according to that session's kind, if nothing has cleaned the ID up since, and otherwise creates one |
| SessionTheorems.BindAtMostOnce | pkg/hub/hub.go:265-283 | over a whole run bindTunnel succeeds at most once on each session, however many handlers race |
| SessionTheorems.DistinctTunnels | pkg/hub/hub.go:275-276 | no websocket is ever the tunnel of two sessions |
| SessionTheorems.ForwardAtMostOnce | pkg/hub/tunnel_ws.go:95-110 | each SSH-initiated session gets at most one forwarding pair in a whole run |
| SessionTheorems.FinishedForever | pkg/hub/hub.go:179-313 | a goroutine that has returned takes no further step, and its number is not used again |
| SessionTheorems.CleanupAtMostOnce | pkg/hub/hub.go:290-312 | both copies reach cleanup, its body is entered once per pair |
| SessionTheorems.EndToEndRouting | pkg/hub/hub.go:150-215 | while an SSH connection is forwarded, it came in on the port of the session's agent, OPEN went only to that agent's control connections, and the tunnel came with that agent's name and with exactly the frame of the session's ID |
| Admission.AdmittedIff | pkg/hub/hub.go:179-202 | an SSH connection gets a session if and only if its agent was found and then found online, and is turned away if and only if one of the two failed |
| Admission.SeesControl | pkg/hub/hub.go:180-187 | the control connection checked is the one of the agent's current AgentState, which LatestControlWins is about |
| Admission.AllAttended | pkg/hub/hub.go:204-214 | every session of every run is still in its handler's hands, or has its watcher, and its waiter if it is an entry one, unless its handler failed to send OPEN |
| OpenMessages.WasWritten | pkg/hub/hub.go:217-229 | every OPEN was written by the handler of its session, with the ID and on the control connection that handler had then |
| OpenMessages.OneOpenEach | pkg/hub/hub.go:204-208 | a handler writes at most one OPEN in a whole run |
| OpenMessages.OpenSentHasOne | pkg/hub/hub.go:204-212 | a session in state OPEN_SENT has its OPEN, with its ID |
| Closings.ClosedIff | pkg/hub/hub.go:179-415 | a connection is closed if and only if some step of the run was one of these: a refusal by its handler, its waiter letting go, its pair's cleanup coming to it, a cleanup of the listed session it belongs to |
| Pairs.PairIsHistory | pkg/hub/hub.go:290-312 | at every moment a pair's copies run exactly until they end, and its cleanup stands where the number of its actions puts it: idle, SSH side, tunnel, session, finished |
| SessionCleanups.ListedIff | pkg/hub/hub.go:189-263 | in every run an ID is in the map exactly if some session was entered under it and no cleanup of that ID came after |
| Requests.ListedAsIff | pkg/hub/hub.go:189-263 | and the session listed there is the one entered last |
| SessionCleanups.CleanupActsIff | pkg/hub/hub.go:249-263 | a cleanup of an ID has an effect exactly if a session was entered under that ID since the cleanup before it |
| SessionCleanups.RepeatedCleanupIff | pkg/hub/hub.go:249-263 | of two cleanups of one ID the later changes nothing if and only if no session was entered under the ID after the last cleanup before it |
| EntryExamples.LateCleanupEndsAnother | pkg/hub/hub.go:354-360 | for every ID two clients may choose, a composed run in which the watcher of the first client's session cleans it up and its waiter, cleaning up once more, times out the session of the second client |
| Orphans.CleanupEndsOnlyItsOwn | pkg/hub/hub.go:249-263 | a cleanup ends an SSH-initiated session only if it belongs to that session: it is run by its onSSHConn, its watcher, its forwarding pair, never on behalf of another session |
| Orphans.OrphansOnlyByStrangers | pkg/hub/tunnel_ws.go:95-111 | in a hub at rest an SSH-initiated session is still listed if and only if some step of the run bound it to a request whose X-Agent was not its agent while its watcher had not given it up; any other has its connections closed |
| Orphans.ConnectionsClosed | pkg/hub/hub.go:179-215 | every accepted SSH connection is closed by then, unless such a request took its session |
| OrphanExample.StrangerLeavesOrphan | pkg/hub/tunnel_ws.go:97-107 | for every ID the hub may generate, a run to rest that leaves its session listed and its SSH connection open |
| TunnelHistory.TunnelWasGiven | pkg/hub/tunnel_ws.go:91-98 | every tunnel of every session was put there by a step of the handler that accepted that websocket |
| TunnelHistory.GivesOnce | pkg/hub/tunnel_ws.go:79-146 | a tunnel handler gives its websocket to one session, once in a whole run |
| EntryTheorems.TunnelIsLastGiven | pkg/hub/tunnel_ws.go:79-102 | and the tunnel of a session, of either kind, is the one it was given last |
| EntryTheorems.EntryWaiterOutcome | pkg/hub/hub.go:354-385 | a waiter that has returned has closed its entry websocket and spliced nothing, or, in a step of the run, handed it to its one splice with a tunnel it read from a session under its own ID that it had found BOUND and that the tunnel's handler had given it to |
| Waiters.WaiterOutcomeIff | pkg/hub/hub.go:354-385 | it closed its client if and only if its timer fired or it found its ID unlisted, and handed it over if and only if it took a tunnel out of a session |
| EntryTheorems.HandsOverAtMostOnce | pkg/hub/hub.go:354-385 | a waiter starts at most one splice in a whole run |
| EntryTheorems.EntryClosedAtRest | pkg/hub/hub.go:354-415 | either way the entry websocket, and the tunnel it was spliced with, are closed in a hub at rest |
| EntryTunnels.OpenIffForgotten | pkg/hub/tunnel_ws.go:29-146 | in a hub at rest an accepted tunnel websocket is still open if and only if its handler wrote it into an entry session, no waiter handed a client over to it, and no cleanup found it as the tunnel of a listed session |
| EntryExamples.ForgottenTunnel | pkg/hub/tunnel_ws.go:86-94 | for every ID a client may choose, a composed run to rest that leaves such a websocket open: it is written into the session after the watcher has removed it |
| EntryTheorems.SplicesShareIff | pkg/hub/hub.go:370-385 | two handovers are of one tunnel if and only if they read the same session and no handler replaced its tunnel in between |
| EntryTheorems.SplicesShareOnlyOneId | pkg/hub/hub.go:354-385 | so one tunnel is spliced with two clients only if both chose one ID |
| EntryExamples.OneTunnelTwoSplices | pkg/hub/tunnel_ws.go:112-146 | for every ID two clients may choose, a composed run in which both create a session and both waiters splice the one tunnel that answers |
| EntryTheorems.ForwardedNotSpliced | pkg/hub/hub.go:278-281 | a websocket that is forwarded to an SSH connection is never spliced with an entry client |
| ComposedSystem.DialAnswers | pkg/agent/agent.go:153-169 | the request handleOpen makes is the only answer to its message, in its agent's name and with its ID, and the hub's handler starts knowing that |
| ComposedSystem.ShakeGood | pkg/agent/agent.go:171-175 | the one frame it writes is the frame of that ID |
| Dials.AnsweredIff | pkg/agent/agent.go:153-169 | an OPEN is answered with a request if and only if its agent's dial for it got through |
| Dials.FramedIff | pkg/agent/agent.go:171-175 | a websocket has a first frame if and only if some step wrote it without an error, and keeps the first one |
| ComposedSystem.ComposedGood | pkg/agent/agent.go:143-175 | with real agents, every request for a hub-generated ID answers an OPEN of that ID read by that agent, one request for each message |
| ComposedSystem.MismatchUnreachable | pkg/hub/tunnel_ws.go:103-107 | with real agents the agent-mismatch branch is unreachable |
| ComposedSystem.DialBackValidates | pkg/hub/tunnel_ws.go:70-77 | a dial-back's first frame always validates and yields the ID of the OPEN it answers |
| ComposedSystem.BindsOwnAgent | pkg/hub/tunnel_ws.go:95-110 | a successful bind is always of an SSH-initiated session by a tunnel of its own agent, also when an entry session took over a removed ID |
| ComposedSystem.ForwardingHasSshConn | pkg/hub/hub.go:285-297 | startForwarding is only called on a session that has an SSH connection |
| ComposedSystem.OpensByIdGoHome | pkg/hub/hub.go:197-204 | every OPEN that carries an ID the hub generated, whoever sent it, went to a control connection of that session's agent |
| ComposedSystem.ListedIsOwned | pkg/hub/hub.go:179-313 | every listed SSH-initiated session has an owner that has not finished: its onSSHConn, its watcher, the handler that bound it, or its forwarding pair |
| ComposedSystem.NothingLeftBehind | pkg/hub/hub.go:179-313 | at rest the hub lists no SSH-initiated session, and all their connections and tunnels are closed |
| DialBackExample.DialBackForwards | pkg/hub/tunnel_ws.go:95-110 | for every ID the hub may generate, a composed run in which the agent's dial-back is bound to that ID's SSH connection and forwarded |
| DialBackExample.EarlyDialBackRefused | pkg/hub/hub.go:204-212 | for every such ID, a composed run in which the dial-back to the only OPEN is refused because onSSHConn has yet to mark the session OPEN_SENT |
| Drain.DrainIsBounded | pkg/hub/hub.go:179-415 | with no new arrivals every schedule is bounded by the work there was and the number of a waiter's looks |
| Drain.NoneStuck | pkg/hub/hub.go:179-415 | a goroutine that has not finished can always take a step that is not just another look |
| Drain.StuckIsAtRest | pkg/hub/hub.go:179-415 | when no goroutine can do more, all have returned |
| Drain.DrainLeavesNothing | pkg/hub/hub.go:179-313 | a schedule of goroutine steps that has gone as far as it can is bounded by the work there was and a waiter's looks, has come to rest, and in a composed run has left nothing behind |
| ComesToRest.RestIsReachable | pkg/hub/hub.go:179-415 | from every state of every run goroutine steps alone lead to rest, in at most as many steps as there is work |
| ComesToRest.NothingIsLeftReachable | pkg/hub/hub.go:179-415 | from every state of every composed run they lead to rest with no SSH-initiated session listed and all their connections and tunnels closed |
| DialBackExample.DialBackComesToRest | pkg/hub/hub.go:285-313 | for every ID the hub may generate, a composed run through forwarding to rest, with the session unlisted and both ends closed |
| Reconnect.BackoffIsCappedIff | pkg/agent/config.go:45-52 | for every setting, in 64-bit arithmetic the delay is the capped linear one exactly when the product fits, or is too large and wraps above the cap |
| Reconnect.BackoffCanWrap | pkg/agent/config.go:45-52 | a backoff setting for which the first delay the loop sleeps, that of attempt 1, is negative |
| Reconnect.BackoffMonotone | pkg/agent/config.go:45-52 | without overflow delays are positive, never decrease and stay within 30 seconds |
| Reconnect.Start | pkg/agent/agent.go:60-77 | for every sequence of outcomes the agent gives up exactly at the end of the first window of that many failures in a row; it sleeps once for each failure but that one, for the delay of the streak that ends there, and never otherwise |
| Reconnect.SleepBeforeGivingUp | pkg/agent/agent.go:60-77 | the total sleep of that window in closed form, for every base, number of retries and cap position |
| AuthorizedKeys.KeyFile.AppendAuthorizedKey | pkg/agent/known_hosts.go:9-35 | a non-blank trimmed key that the file is not seen to contain is appended as a line; a missing directory or an unopenable file fails, an unreadable file is appended to, a short write leaves its part and fails |
| AuthorizedKeys.SoundAppends | pkg/agent/known_hosts.go:9-35 | when no file operation fails the call succeeds, and a non-blank key that is no part of the file is appended as a line, also to a file that did not exist |
| AuthorizedKeys.CallFailsIff | pkg/agent/known_hosts.go:9-35 | a call fails exactly if a non-blank key is not seen in the file and an operation it then needs fails; it leaves a proper part of the line |
| AuthorizedKeys.TrimParts | pkg/agent/known_hosts.go:10 | trimming takes the white space off both ends and nothing else |
| AuthorizedKeys.SuccessLasts | pkg/agent/known_hosts.go:9-35 | whatever fails before and after, once a call reports success the file contains its key ever after |
| AuthorizedKeys.SuccessIsAppendIff | pkg/agent/known_hosts.go:23-28 | a call that reports success has done what it does on a sound disk, exactly unless it could not read a file that has the key already |
| AuthorizedKeys.NothingIsLost | pkg/agent/known_hosts.go:30-34 | whatever fails, the file only grows at its end |
| AuthorizedKeys.Find | pkg/agent/known_hosts.go:24-26 | the search decides whether a string occurs in another |
| AuthorizedKeys.FileIsItsLines | pkg/agent/known_hosts.go:9-35 | from an absent file, the contents are the lines the keys added |
| AuthorizedKeys.LinesDistinct | pkg/agent/known_hosts.go:9-35 | for every sequence of newline-free keys all lines are distinct and none is blank |
| AuthorizedKeys.KeysPresent | pkg/agent/known_hosts.go:9-35 | every non-blank key that arrived is part of one line |
| AuthorizedKeys.FileOnlyGrows | pkg/agent/known_hosts.go:30-34 | each file is a prefix of every later one |
| AuthorizedKeys.ReplayChangesNothing | pkg/agent/known_hosts.go:23-28 | keys that arrived before, in any order and number, leave the file unchanged |
| AuthorizedKeys.OwnLineIff | pkg/agent/known_hosts.go:23-28 | for every sequence of keys, a key ends up on a line of its own if and only if no key before its first arrival contains it |
| AuthorizedKeys.InFileIff | pkg/agent/known_hosts.go:23-34 | a newline-free piece is in the file exactly if it is part of some key that arrived |
| AuthorizedKeys.ShorterKeySkipped | pkg/agent/known_hosts.go:23-28 | a key that an earlier key extends with a comment is never written |

## Left out

- Hub shutdown and context cancellation: the watcher then returns without cleanup, so draining is claimed for a running hub only.
- `state.Control` may become nil between the check and the send, where the code would dereference nil: modelled as a failed send.
- `startForwarding` on an entry session would dereference a nil SSHConn: modelled as skipping that close, and proved unreachable with real agents.
- `saveMapping` iterates the agent map without the mutex: modelled as one atomic snapshot; a torn read or the runtime's concurrent-map fault is not modelled.
- A crash in the middle of a file write: covered only as a write that leaves a damaged file.
- Entry sessions stay in the map after forwarding unless their watcher or another cleanup removes them: no claim is made that the map empties of them.
- The `Deadline` field is never enforced by the code and is not in the model; timers fire at any time.
- The header-less tunnel path accepts any first eight bytes: the model does the same and states nothing about the magic there.
- That an opened session is ever bound: the agent may be slow, offline or refused, and does not retry, so no such claim is made.
- Byte transport: a copy goroutine is a step that ends at an arbitrary time.
- The agent's own end of a tunnel (its local SSH connection and copies): library calls over one local connection.
- WebSocket, HTTP, h2c and TCP plumbing, and JSON and protobuf encoding: unseen libraries.
- Bearer-token checks, the RPC service, the embedded binary server, configuration defaults: single-branch facts.
- `pkg/entry`, `pkg/utils`, logging, instance locks, the embedded SSH server, commands and scripts: process and file glue.
- AuthorizedKeys.FileIsItsLines: about a disk on which every operation succeeds, because a short write glues the next key to the part it left.
- AuthorizedKeys.LinesDistinct: for the same disk; an unreadable file gets a key twice (`SuccessIsAppendIff`).
- AuthorizedKeys.KeysPresent: for the same disk; `SuccessLasts` is what holds on any.
- AuthorizedKeys.ReplayChangesNothing: for the same disk, as are `FileOnlyGrows`, `OwnLineIff` and `ShorterKeySkipped`.
