# P2P Hub: verified model of the signaling server, its client replicas and ICE candidates

The project models the signaling hub of `p2phub` (a single goroutine that owns a map of peers, each
with a bounded outbound channel), the two pumps and the handler of every WebSocket connection, the
client's `peers` map that is driven by the hub's messages, and the ICE code: the text form of a
candidate, candidate priorities, and the gatherer and agent with their parallel lists of candidates
and sockets.

Check it with `dafny verify dfyconfig.toml` (Dafny 4.11).

## How the model is built

- `Messages` is the message vocabulary and the log of send attempts on one channel.
- `Replica` holds the client's update rule, how far a lossy channel can push it off course, and the
  client and transport objects (`Client`, `WebSocketClient`).
- `HubLog` is the sequential specification: from the order in which the hub received registrations,
  unregistrations and submissions it computes the map and, for every connection, the exact list of
  messages to be offered to it (`Members`, `Hears`, `Tail`).
- `HubSystem` is the running server as a transition system. One action is one step of one goroutine:
  a single send of a broadcast loop, a drain by a write pump, a submission by a read pump, a phase of
  `handleWebSocket`, the client processing a message. A Go panic (send on a closed channel, second
  close) is a state of the hub, so its absence is proved and not assumed. IDs may collide.
- `HubInvariant` proves the inductive invariant: each channel's history, plus the message in the hub's
  hand, is what `HubLog` demands. `HubTheorems`, `HubProgress` and `HubRequests` draw the conclusions.
- `HubEffects` shows that an undisturbed handler run of the transition system has a pointwise effect on
  the buffers, whatever the map's iteration order; `HubClasses` proves the same effects of the objects
  `Chan`, `Peer` and `Hub` with their loops.
- `Decimal`, `CandidateText`, `CandidateForms`, `Priority`, `Gathering` and `IceAgents` are the ICE side;
  `IceAgents` has the objects `Net`, `Gatherer` and `IceAgent`, each call of which refines a step of
  `Gathering`.

Assumptions: clients submit through `Send` and `Broadcast` only, so submitted messages have type
`signal` (the hub does not check it); a WebSocket is a reliable FIFO until it fails, and a message that
was taken from the channel when a write failed counts as undelivered; the channel capacity is a
parameter, at least 2 where a result needs it (the server uses 256); `int` has 64 bits; within one
`Gather` call the ports held by other processes do not change.

## Results

- The hub never sends on a closed channel and never closes one twice, for arbitrary IDs.
- A member's replica, once its pipeline has drained, differs from the hub's map in at most as many IDs
  as membership messages were dropped for it. "A drained replica is exact" is false of the code, for every
  capacity (`DropDiverges`). `DrainedAgreement` gives the exact condition: for no ID was the latest message
  about it dropped while the latest one that got through says the opposite. `LatestFactAccuracy` states the
  same for one ID at any time, counting what has not arrived yet as lost. With no membership message dropped
  the condition holds, and a member with a running pump can always drain (`MemberCatchesUp`).
- Naively "the hub always returns to its select" is false: for every capacity a peer with a full channel
  and a failed write pump can wedge it (`WedgeIsReachable`). `HubReturnsUnlessWedged` is the exact
  condition, and a wedge is permanent.
- "Both pumps end" is false as well (`StuckPumpsAreReachable`): an ended pump can still be received if and
  only if the handler is waiting (`EndedPumpIsReceived`); otherwise it stays blocked on `done` forever, and
  of two ended pumps exactly one does.
- Every request of a connection (register, submit, unregister, also a late submission) is taken in some
  continuation if and only if the hub is not wedged (`HubRequests`). What the hub is handed is what the
  client sent; what it sends out for each event is fixed message by message (`TargetedExactlyOnce`,
  `BroadcastOutcome`).
- A write pump that ends without a failure loses nothing (`CleanEndLosesNothing`).
- `AcceptedTexts` describes the exact language of the candidate parser. Parsing a printed candidate
  returns it (without its base) if and only if its four string fields are non-empty and contain no white
  space.
- "Connect pairs the first candidate with its own socket" is false after `Close` and a new `Gather`
  (`CloseBreaksPairing`); `ConnectAfterClose` gives the exact condition for all runs.

## Model

| member | source | states |
|---|---|---|
| Replica.Client.HandlePeerEvent | pkg/p2p/client.go:220-254 | joined and list events add IDs, left removes, registered changes nothing; the application handler, if any, is told once |
| Replica.Client.Peers | pkg/p2p/client.go:187-197 | the slice built by the loop lists every known peer exactly once |
| Replica.WebSocketClient.HandleMessage | pkg/p2p/transport/websocket.go:287-367 | dispatch by message kind to the own ID, the peer handler (and through it the application's) or the signal handler; without handlers membership and signals are lost |
| Replica.WebSocketClient.ReadPump | pkg/p2p/transport/websocket.go:217-257 | messages are handled in order: the replica is the replay of the input, the signals are passed on in order, an installed application handler is told each membership event |
| Replica.SignalsOfSelects | pkg/p2p/transport/websocket.go:346-349 | what is passed on are the signals of the input, every one of them as often as it occurs, in order |
| Replica.EventsOfExactly | pkg/p2p/client.go:224-253 | the application is told one event of the same kind and IDs for each list, joined and left message, nothing else, in the order of the messages |
| Replica.LastRegisteredIsLatest | pkg/p2p/transport/websocket.go:289-300 | the own ID is that of the latest registered message, or unchanged if there is none |
| Replica.ConnectAndRead | pkg/p2p/client.go:62-90 | with handlers installed before dialing the replica is the replay of everything sent from the first message on; the application hears only what comes after it installed its own handler on the returned client |
| Replica.LateHandlers | pkg/p2p/client.go:82-86 | handlers installed too late still give the right replica if and only if everybody the lost messages left in it is the subject of a later fact |
| Replica.ReplayIsLatestFact | pkg/p2p/client.go:224-246 | a replica holds an ID exactly when the latest fact it saw about that ID is not a departure |
| Replica.DriftBound | internal/signaling/hub.go:165-192 | what was offered and what got through differ in at most as many IDs as membership messages were dropped |
| Replica.WrongExactlyIfMisled | internal/signaling/hub.go:165-192 | a reader of a lossy channel is wrong about an ID if and only if the latest message about it was dropped and contradicts the latest one that got through |
| HubLog.KnowledgeIsMembership | internal/signaling/hub.go:54-104 | a member that saw its welcome and all that the events owe it knows exactly the other IDs, also when IDs collide |
| HubLog.TailAtEvent | internal/signaling/hub.go:106-144 | each event contributes to a connection's messages exactly what that event demands |
| HubLog.AtEventSelects | internal/signaling/hub.go:40-52 | the sends attributed to an event are all those made while it was handled, in order |
| HubLog.TailSignals | internal/signaling/hub.go:106-144 | the signals of s owed to r are the submissions of s for r made while r was a member |
| HubInvariant.ReachableInv | internal/signaling/hub.go:40-192 | in every reachable state each channel history plus the message in hand equals the sequential specification, for all interleavings |
| HubTheorems.ChannelSafety | internal/signaling/hub.go:85-92 | no panic on a closed channel, closed connections are not in the map, map entries have distinct connections, queues stay within capacity, for arbitrary IDs |
| HubTheorems.RegistrationNeverBlocks | internal/signaling/hub.go:61-71 | both blocking sends of a registration find an open channel with room |
| HubTheorems.RegistrationPrefix | internal/signaling/hub.go:61-82 | every channel history starts with the own ID and the list of the other members at that moment, and neither kind occurs again |
| HubTheorems.BoundedDrift | internal/signaling/hub.go:165-192 | for every member, also while it is being welcomed: replaying what is on its way and in the hub's hand gives a set whose difference to the other members is bounded by the dropped membership messages |
| Messages.DroppedMembershipCounts | internal/signaling/hub.go:169-175 | the number of dropped membership messages is the number of list, joined and left attempts that met a full channel |
| HubTheorems.ReplicaAgreement | pkg/p2p/client.go:187-197 | for every member: that replay is exact if and only if no dropped message misleads it about anybody, in particular if no membership message was dropped |
| HubTheorems.DrainedAgreement | pkg/p2p/client.go:187-197 | with an empty pipeline the client's map is the set of other members if and only if no drop on its channel misleads it |
| HubTheorems.DrainedVerdicts | pkg/p2p/client.go:220-254 | with an empty pipeline an ID is in the client's map exactly when the latest kept message about it is not a departure, and is a member exactly when the latest one, kept or dropped, is not |
| HubTheorems.ReplicasAgree | pkg/p2p/client.go:187-197 | two members with empty pipelines whom no drop misleads agree on who is connected |
| HubTheorems.LatestFactAccuracy | pkg/p2p/client.go:224-246 | at any time and for every ID: the client is wrong about it if and only if the latest message about it has not reached the client (dropped, on its way or in hand) and contradicts the latest one that has |
| HubTheorems.ChannelConservation | cmd/server/main.go:174-194 | processed, on the wire, in flight and queued messages together are what entered the channel, in order, also after close |
| HubTheorems.KeptIffRoom | internal/signaling/hub.go:169-175 | every attempt in a channel's history was kept if and only if the channel had room in the state of the run in which it was made; a drop has at least capacity many kept messages before it |
| HubTheorems.SubmissionOutcome | internal/signaling/hub.go:106-144 | every handled submission carries its sender's ID, and it, like every other event but the connection's own registration, causes towards each connection exactly the send that the routing demands |
| HubTheorems.BroadcastOutcome | internal/signaling/hub.go:165-192 | a submission without target goes once to each member, its sender included; a registration and an unregistration are announced once to each other member; nobody else is sent anything |
| HubTheorems.SubmittedIsSent | cmd/server/main.go:139-162 | in every run the messages handed to the hub, with the one in the read pump, are what the client sent, in order, unchanged but for the sender stamp |
| HubSystem.SentByExactly | cmd/server/main.go:139-162 | what a client sent in a run: one message with the stamp for each read of its connection, in order, and nothing else |
| HubTheorems.TargetedExactlyOnce | internal/signaling/hub.go:107-140 | a targeted submission causes exactly one send on the whole server: the message to the target, or the error naming the target to a present sender, or none when both are absent |
| HubTheorems.PairwiseFifo | cmd/server/main.go:155-162 | signals from a in b's channel, and those b processed, are an ordered selection without duplicates of what a's client sent for b in the run; with what the hub has in hand for b they are all of those submitted while b was a member if and only if none was dropped |
| HubLog.SignalsFromSelects | cmd/server/main.go:155-156 | the signals of one sender in a list are all those with its stamp, in order |
| HubLog.AddressedToSelects | internal/signaling/hub.go:107-143 | what is meant for a receiver in a list are all signals to it or to everyone, in order |
| HubTheorems.AnnouncedBeforeSignal | internal/signaling/hub.go:70-82 | with no membership message dropped, a signal of a member q is preceded in c's channel by a list or joined message naming q, and a client that processed everything before the signal lists q |
| HubTheorems.Lifetime | internal/signaling/hub.go:54-104 | for any IDs: a connection is a member exactly when its registration is the last change under its ID, its handler has returned exactly when it unregistered, and its channel is closed exactly when it unregistered while its ID was in the map |
| HubTheorems.OwnIdLifetime | cmd/server/main.go:112-124 | with an unshared ID a connection is a member exactly between registration and unregistration, and its channel is closed exactly afterwards |
| HubTheorems.OneHandshake | cmd/server/main.go:116-124 | the handler receives done from at most one pump, and has moved on exactly when it received it |
| HubProgress.LoopRun | internal/signaling/hub.go:165-192 | a broadcast loop gives the same links in whatever order the map is traversed, one attempt per target |
| HubProgress.HubBlocksOnlyAtErrorReply | internal/signaling/hub.go:122-137 | the hub can take its next step unless it is in the error reply with the sender's channel full |
| HubProgress.OneDrainReleases | cmd/server/main.go:174-182 | one drain by a running write pump lets the blocked error reply and then the select proceed |
| HubProgress.WedgedForever | cmd/server/main.go:120-124 | once the sender's pump has exited the hub, its map and its log are frozen and that connection never completes its unregistration |
| HubProgress.HubReturnsUnlessWedged | internal/signaling/hub.go:40-52 | the hub can return to its select if and only if it is not wedged |
| HubRequests.DepartureCompletes | internal/signaling/hub.go:40-52 | a connection that wants to unregister is let go in some continuation if and only if the hub is not wedged |
| HubRequests.RegistrationAccepted | internal/signaling/hub.go:40-52 | a connection that wants to register is entered in some continuation if and only if the hub is not wedged |
| HubRequests.NewcomerAccepted | cmd/server/main.go:95-113 | anyone can connect under any non-empty ID, also one that is taken, if and only if the hub is not wedged |
| HubRequests.SubmissionAccepted | cmd/server/main.go:160-162 | a message in a read pump, also after its connection returned, is the next that the hub takes from it in some continuation if and only if the hub is not wedged |
| HubRequests.AnySignalAccepted | cmd/server/main.go:139-162 | the same for any target and payload that a client sends to a reading pump, with the payload as sent |
| HubProgress.WedgeIsReachable | internal/signaling/hub.go:123-137 | for every capacity of at least 2 some run wedges the hub |
| HubProgress.MemberCatchesUp | cmd/server/main.go:166-194 | a member with a running pump can empty its pipeline by its own steps; it then has the hub's exact membership if and only if no drop misleads it, in particular with no membership message dropped |
| HubProgress.DropDiverges | internal/signaling/hub.go:182-191 | for every capacity of at least 2 some run drops a joined message and leaves a member with an empty pipeline and a wrong replica, so the condition of DrainedAgreement can fail |
| HubProgress.SecondPumpBlocksForever | cmd/server/main.go:128-131 | a pump that ends after the other was received stays blocked on done in every continuation |
| HubProgress.EndedPumpIsReceived | cmd/server/main.go:116-124 | a pump that has ended can still be received in some continuation if and only if the handler is waiting |
| HubProgress.OnePumpIsStuck | cmd/server/main.go:116-124 | when both pumps have ended and the handler has moved on, exactly one of them is stuck |
| HubProgress.StuckPumpsAreReachable | cmd/server/main.go:116-131 | for every capacity of at least 2 some run leaves the write pump stuck and some run the read pump |
| HubRequests.PumpsStart | cmd/server/main.go:115-118 | after its registration a connection's pumps can start, whatever the hub is doing |
| HubRequests.PumpsMayFail | cmd/server/main.go:134-193 | a running write pump can fail at any moment, with or without a message in flight, and a reading read pump too; nothing else changes |
| HubRequests.EndedPumpIsSilent | cmd/server/main.go:134-193 | an ended write pump never writes again and what it had in flight is never delivered; an ended read pump submits nothing more |
| HubRequests.ReaderRunsUntilFailure | cmd/server/main.go:139-162 | the read pump keeps reading and submitting until a read fails |
| HubRequests.NothingAfterClose | internal/signaling/hub.go:85-92 | no message is offered to a connection after its channel was closed |
| HubRequests.ClosedChannelDrains | cmd/server/main.go:174-182 | a running write pump of a closed channel can, without any failure and without the client, write all that is left on it and then end |
| HubRequests.CleanEndLosesNothing | cmd/server/main.go:174-179 | a write pump that ends without a failure has a closed channel and has written all that ever entered it |
| HubEffects.LoopEffect | internal/signaling/hub.go:165-192 | an undisturbed loop ends at the select, each targeted buffer extended if it had room and every other one unchanged |
| HubEffects.RegisterRun | internal/signaling/hub.go:54-83 | an undisturbed registration has the effect that HandleRegister has on the buffers |
| HubEffects.UnregisterRun | internal/signaling/hub.go:85-104 | an undisturbed unregistration has the effect of HandleUnregister |
| HubEffects.SubmitRun | internal/signaling/hub.go:106-144 | an undisturbed submission has the effect of HandleBroadcast, or stops in the blocked error reply with nothing changed |
| HubClasses.Chan.TrySend | internal/signaling/hub.go:170-174 | a non-blocking send appends below capacity and drops otherwise |
| HubClasses.Hub.BroadcastTo | internal/signaling/hub.go:165-192 | the loop sends once to each target, whatever the order, and touches no other channel |
| HubClasses.Hub.ListOthers | internal/signaling/hub.go:146-155 | the snapshot lists every other ID exactly once |
| HubClasses.Hub.HandleRegister | internal/signaling/hub.go:54-83 | the peer is stored, its channel holds its ID and the list, every other member got one joined attempt |
| HubClasses.Hub.HandleUnregister | internal/signaling/hub.go:85-104 | the entry is deleted by ID, the peer's own channel is closed if there was one, the rest got one left attempt |
| HubClasses.Hub.SendTo | internal/signaling/hub.go:112-119 | one direct non-blocking send: the target's buffer grows if it has room, no other buffer changes |
| HubClasses.Hub.HandleBroadcast | internal/signaling/hub.go:106-144 | forward, reply, discard or broadcast; blocked exactly when the reply meets a full channel |
| CandidateText.TextLayout | pkg/p2p/ice/gatherer.go:53-58 | the printed text has the documented layout |
| Decimal.DecimalNumeral | pkg/p2p/ice/gatherer.go:53-58 | a number is printed as its decimal numeral: no leading zero, the last character is the last digit, the rest is the numeral of the tenth |
| Decimal.NumeralIsPrinted | pkg/p2p/ice/gatherer.go:53-58 | every digit string without a leading zero is what is printed for its value |
| Decimal.PrintedSign | pkg/p2p/ice/gatherer.go:53-58 | a negative number is a minus sign and the numeral of its magnitude |
| CandidateText.WhiteSpace | pkg/p2p/ice/gatherer.go:60-69 | the characters at which the scanner splits, one by one |
| CandidateText.RoundTrip | pkg/p2p/ice/gatherer.go:53-69 | parsing the printed form returns the candidate with its base cleared if and only if its four string fields are tokens |
| CandidateText.PrintingInjective | pkg/p2p/ice/gatherer.go:53-58 | two printable candidates with the same text differ at most in their base |
| CandidateText.ParsedIsPrintable | pkg/p2p/ice/gatherer.go:60-69 | every accepted text yields four tokens and no base |
| CandidateText.ParseNormalises | pkg/p2p/ice/gatherer.go:60-69 | printing what was parsed, from any accepted text, parses to the same candidate |
| CandidateForms.AcceptedTexts | pkg/p2p/ice/gatherer.go:60-69 | exactly the texts that are accepted, and the candidate each of them gives: the fields separated by one or more spaces, signs and leading zeros allowed, values within their widths, anything after the last field that begins with a space |
| Priority.CalculateNeverWraps | pkg/p2p/ice/gatherer.go:253-278 | the 32-bit computation never wraps: 2^24 times 126, 110, 100 or 0 by type, plus 2^8 times 100 or 200 for private or public, plus 255; it is a legal priority |
| Priority.FormulaRange | pkg/p2p/ice/gatherer.go:255-277 | in-range inputs give 0 to 2^31-1, and 0 for exactly one input |
| Priority.InputsRecoverable | pkg/p2p/ice/gatherer.go:255-277 | type preference, local preference and component can be read back from the priority |
| Priority.OrderIsLexicographic | pkg/p2p/ice/gatherer.go:255-277 | numeric order is lexicographic order of type, local preference and component |
| Priority.HostFirst | pkg/p2p/ice/gatherer.go:258-275 | the code ranks host above every other type, and public above private hosts |
| Gathering.SkippedMeansFull | pkg/p2p/ice/gatherer.go:234-251 | with a port range an address is skipped exactly if every port of the range is taken, and otherwise gets the lowest one that is not; without a range it gets a free port or is skipped |
| Gathering.ChosenAreFresh | pkg/p2p/ice/gatherer.go:117-143 | bound endpoints are pairwise different, were free, and lie in the range |
| Gathering.ChosenExactly | pkg/p2p/ice/gatherer.go:118-143 | each successful bind gives one endpoint, those of earlier binds first |
| Gathering.IpTextInjective | pkg/p2p/ice/gatherer.go:136-137 | different IPv4 addresses have different texts, so a candidate names one socket only |
| Gathering.GatheredRoundTrip | pkg/p2p/ice/gatherer.go:130-138 | every gathered candidate survives its text form |
| Gathering.GatheredCandidates | pkg/p2p/ice/gatherer.go:117-143 | a gather adds, after the candidates there were, one for each bound socket, in order, with every field written out: host, its number, component 1, udp, the priority of a private or public address, address and port |
| Gathering.IpLayout | pkg/p2p/ice/gatherer.go:136-137 | an address is printed as four decimal numerals separated by dots |
| Gathering.AlwaysAligned | pkg/p2p/ice/gatherer.go:172-182 | over all runs, closes included, listeners are aligned with the candidates gathered since the last close |
| Gathering.GatherInvariant | pkg/p2p/ice/gatherer.go:106-150 | without a close candidates and listeners are equally long, aligned, pairwise different, bound and in range |
| Gathering.ConnectPairs | pkg/p2p/ice/connection.go:323-364 | without a close a connection joins the first candidate, the bound socket it names and the first remote candidate added |
| Gathering.ConnectAfterClose | pkg/p2p/ice/connection.go:339-352 | for all runs, exactly when connect succeeds, which socket it takes, and when that is the first candidate's own |
| Gathering.ConnectErrors | pkg/p2p/ice/connection.go:327-360 | over all runs, exactly when connect returns each of its four errors and when it succeeds |
| Gathering.CloseBreaksPairing | pkg/p2p/ice/gatherer.go:172-182 | a run with a close that pairs the first candidate with a socket it does not name |
| IceAgents.Gatherer.BindUDP | pkg/p2p/ice/gatherer.go:234-251 | the loop finds the first free port of the range, or the system picks one |
| IceAgents.Gatherer.Gather | pkg/p2p/ice/gatherer.go:106-150 | one bind per address; candidates and listeners grow by the bound endpoints, in order; fails only if there is no candidate at all |
| IceAgents.Gatherer.Close | pkg/p2p/ice/gatherer.go:172-182 | all sockets are released and the listeners dropped, the candidates stay |
| IceAgents.IceAgent.Gather | pkg/p2p/ice/connection.go:273-290 | one gather step of the agent's state machine |
| IceAgents.IceAgent.Connect | pkg/p2p/ice/connection.go:323-364 | result and new state of the connect step, with its four errors in order |
| IceAgents.IceAgent.Close | pkg/p2p/ice/connection.go:373-387 | one close step of the agent's state machine |

## Left out

- HubSystem: HTTP upgrade, dialing, deadlines, pings (beyond a ping that fails), logging, signal handling and shutdown are not modelled; failures are nondeterministic steps.
- HubSystem: reads and writes on a connection may fail or succeed at any time, also after the handler closed it; this allows more behaviour than the library.
- HubSystem: the hub's receive and the map update at the start of a handler are one step, since no other goroutine reads the map; the two goroutines of a connection start in one step.
- HubSystem: the endless loops of the hub and of the server's pumps are the actions of the transition system; the handlers are also objects with loops.
- Messages: JSON encoding, timestamps and `JoinedAt` are not modelled; a message decodes to what was encoded, and a message of the server always encodes.
- Messages: messages of other types submitted by a foreign client are excluded by assumption.
- HubSystem: peer IDs are arbitrary non-empty strings chosen when a connection is dialed; their random generation is not modelled. Only PairwiseFifo and OwnIdLifetime ask for an ID to be unique: the first recognises signals by the stamp, the second is the special case of Lifetime in which no other registration overwrites the entry.
- HubTheorems.BoundedDrift: what the hub has still to send to the member in the handler it is in, its own welcome included, counts as on its way, because the map is updated before the sends; the list of a welcome that is not sent yet is any listing of the other members.
- Replica.Client: the content of application callbacks and the locks around them; that a callback must not call back into the client is not stated.
- CandidateText: strings are sequences of Unicode scalar values; bytes that are not valid UTF-8 are not modelled. The scanning rules are those documented for Go's fmt package, which is not part of this model beyond the format used.
- IceAgents.Net: binding a port fails exactly if it is not a port number or is held; other reasons count as held. Wildcard addresses are not modelled.
- IceAgents.IceAgent.Connect: resolving the remote address is a parameter; candidates are compared by value, which selects the same index as comparing pointers because index 0 always matches.
- Interface enumeration, its error and the fallback to localhost: the list of addresses is an input.
- The UDP connection's send and receive loops, its closed flag, the SDP types, signal parsers and the demo client: they would add only easy members or timing.
- `GetRemoteCandidates` in pkg/p2p/ice/connection.go:312-319 takes the read lock and releases the write lock, which Go reports as a fatal error; locks are not part of this model.
