# FXGL networking client and entity group, modelled in Dafny

This project models two parts of the FXGL game library.

**The networking client** (`Client.java`). A client talks to a server over a stream
channel (TCP) and a datagram channel (UDP). Each channel is a thread with a `running`
flag. Each thread runs a receive loop that classifies every inbound value. `CLOSE`
ends the channel. `CLOSING` is answered with one `CLOSE`, and then the channel ends.
Anything else is handed to the parser registered for the value's runtime class, or
dropped when there is none. Sends are refused with "not connected" unless the target
channel is running. On start, the datagram channel announces itself with one `OPEN`.
`disconnect` tries `CLOSING` on each channel and clears both flags.

**The entity group** (`EntityGroup.kt`). A group of entities of given types. Listener
callbacks only queue entities. Every iteration first folds the addition queue and then
the removal queue into the list. After that it visits the active entities in order,
optionally filtered.

Files:

- `net_protocol.dfy` (module `NetProtocol`): the protocol as pure functions over
  values. It has the send guard (`Send`), the loop body (`Step`), the two thread starts
  (`StartStream`, `StartDatagram`, and `LateStart` for a socket that comes up after
  `connect` stopped waiting), the routing (`SendVia`), the registry (`AddParser`),
  `DisconnectTcp`, `DisconnectUdp`, `Disconnect`, `Connect`, and a client-level event
  trace (`Apply`, `Replay`). The lemmas here are about these functions.
- `net_client.dfy` (module `NetClient`): the classes `Channel` and `Client`. Their
  fields are changed in place. Every method is proved to change the state exactly as the
  matching `NetProtocol` function says: the one of the same name, except that
  `Client.Send` matches `SendVia`. Each `Client` method, the constructor
  included, also keeps the invariant `Valid()`, which is `SessionInv` on the client's
  state.
- `entity_group.dfy` (module `EntityGroupModel`): the class `EntityGroup` over `seq`
  fields, and the list semantics it relies on, with lemmas.

How the environment is represented:

- A write to a socket either succeeds or throws. This is the `writeOk`, `tcpOk`,
  `udpOk` or `openOk` parameter.
- A read either yields a decoded value or throws: `Inbound.Received(m)` or
  `Inbound.ReadFailed`. `ReadFailed` covers an I/O error and a datagram that does not
  decode.
- Each socket either comes up within the 10-second wait of `connect`, comes up later,
  or never comes up: `Readiness`. A late socket leaves its channel in phase `Starting`:
  the thread exists but has not set `running`. The moment it comes up (or fails) is the
  separate event `LateStartCall`, which can happen after any other operation.
- The host name either resolves or does not: `resolveOk`.
- A parser callback is identified by a `HandlerId`. Calling it adds a `Dispatch` record
  to the channel's `log`.
- What a channel writes is recorded, in order, in its `outbox`.

Assumptions:

- `ConnectionMessage` is an enum. Its constants therefore keep their identity through
  deserialization, and the source's `==` tests become constructor tests on `Msg`. The
  enum's class is one `TypeTag` (`ConnectionMessageClass`).
- `Array.removeAll(list, true)` behaves as in libGDX. For each queued entry in turn, it
  removes the first identical element and keeps the order of the rest. `addAll` appends
  in order.
- Entities are objects (`class Entity`), so "identical" is reference equality, as in
  the source. The entity's `TypeComponent` value is `typeTag`. Type matching is equality
  of that value with one of the group's types.

Behaviour of the code that the model keeps, although a reader might expect otherwise:

- A datagram that fails to decode ends the UDP channel. The decode sits in a `try`
  without a `catch` (`Client.java:215-234`). It is not dropped and followed by more reads.
  See `StepOnFailure`.
- A `connect` that times out does not stop a thread whose socket is late. Once the
  socket comes up, that channel runs although `connect` reported failure
  (`LateChannelKeepsRunning`).
- Until a late socket comes up, a send on its channel is refused as not connected
  (`LateSocketRefusesSends`). A `disconnect` in that window sends nothing and changes
  nothing, so the thread afterwards sets `running` and runs its loop
  (`DisconnectBeforeLateStart`, `DisconnectUndoneByLateStart`).
- `connect` reports success when both sockets are up in time, whether or not the
  datagram channel's `OPEN` send works (`ConnectIgnoresAnnouncement`). In the model the
  `OPEN` send is part of the datagram start, so a failed one has ended the channel by the
  time `connect` returns. In the source the thread may send it only after `connect`
  returned.
- A control value can reach a parser. `OPEN` is not filtered by the receive loop, so a
  parser registered for `ConnectionMessage`'s class receives it
  (`ControlValuesAndParsers`). `CLOSE` and `CLOSING` never reach a parser.

## Model

| member | source | states |
|---|---|---|
| `NetProtocol.Send` | src/com/almasb/fxgl/net/Client.java:130-147 | a send is refused with NotConnected exactly when the channel is not running; it is written exactly when running and the write succeeds, appending exactly that value; a refused or failed send changes nothing; the flag, phase and log never change |
| `NetProtocol.SendNotRunning` | src/com/almasb/fxgl/net/Client.java:130-147 | on a channel that is not running, a send to it is NotConnected and leaves the whole client unchanged |
| `NetProtocol.SendVia` | src/com/almasb/fxgl/net/Client.java:123-128 | TCP is used only for protocol TCP and UDP for everything else; the channel not addressed and the parser map are unchanged |
| `NetProtocol.SendDefault` | src/com/almasb/fxgl/net/Client.java:119-121 | the one-argument send is the UDP send and leaves the TCP channel unchanged |
| `NetProtocol.AddParser` | src/com/almasb/fxgl/net/Client.java:115-117 | after registration the class maps to the new parser (last wins), the key set gains only that class, every other entry and both channels are unchanged |
| `NetProtocol.Deliver` | src/com/almasb/fxgl/net/Client.java:184 | at most one invocation; one exactly when a parser is registered for the value's exact class, and then it is that parser with that value |
| `NetProtocol.ClassOf` | src/com/almasb/fxgl/net/Client.java:184 | no ensures of its own: a payload's class is its own name and every control value has the enum's class; stated through Deliver and ControlValuesAndParsers |
| `NetProtocol.Run` | src/com/almasb/fxgl/net/Client.java:172-185 | no ensures of its own: the `while (running)` loop as repeated Step over a sequence of reads, stopping once the loop is left; stated by RunShape and RunKeepsInv |
| `NetProtocol.Step` | src/com/almasb/fxgl/net/Client.java:172-190 | the loop goes on exactly when running and the value is neither CLOSE nor CLOSING; a channel that leaves the loop has running cleared; the only possible output is one CLOSE, for a CLOSING while running with a working write; only values other than CLOSE and CLOSING are dispatched, through Deliver |
| `NetProtocol.StepOnClose` | src/com/almasb/fxgl/net/Client.java:174-177 | an inbound CLOSE clears running and closes the channel with nothing sent and nothing dispatched |
| `NetProtocol.StepOnClosing` | src/com/almasb/fxgl/net/Client.java:178-182 | an inbound CLOSING while running with a working write appends exactly one CLOSE and closes; if running was already cleared (or the write throws) it ends through the exception path with no reply; never dispatched |
| `NetProtocol.StepOnData` | src/com/almasb/fxgl/net/Client.java:184 | a data value goes to its class's parser or is dropped; running, output unchanged; the loop continues exactly when running |
| `NetProtocol.StepOnFailure` | src/com/almasb/fxgl/net/Client.java:187-190 | any exception in the loop ends the channel with running cleared and nothing else changed |
| `NetProtocol.ControlValuesAndParsers` | src/com/almasb/fxgl/net/Client.java:174-184 | an inbound OPEN reaches a parser registered for the control-message class; CLOSE and CLOSING reach no parser |
| `NetProtocol.StepKeepsInv` | src/com/almasb/fxgl/net/Client.java:172-190 | one loop iteration keeps the channel invariant (not in the loop implies not running; a channel whose socket is not up yet has no output and no dispatches) |
| `NetProtocol.RunShape` | src/com/almasb/fxgl/net/Client.java:172-185 | over any sequence of reads a loop writes nothing of its own except at most one final CLOSE (and is then closed); earlier output and earlier dispatches are kept; a loop that has exited reads nothing |
| `NetProtocol.RunKeepsInv` | src/com/almasb/fxgl/net/Client.java:172-190 | a whole run of the loop keeps the channel invariant |
| `NetProtocol.StreamUp` | src/com/almasb/fxgl/net/Client.java:166-170 | once its socket is connected the stream channel is running and in its loop, with its output and log unchanged |
| `NetProtocol.DatagramUp` | src/com/almasb/fxgl/net/Client.java:203-208 | once its socket is bound the datagram channel enters its loop exactly when its OPEN is sent, and then it has written exactly one OPEN more; otherwise it has ended, not running, with nothing written |
| `NetProtocol.SocketFailed` | src/com/almasb/fxgl/net/Client.java:187-190 | a thread whose socket cannot be opened ends through its handler, not running, with nothing written or dispatched |
| `NetProtocol.StartStream` | src/com/almasb/fxgl/net/Client.java:163-170 | when connect's wait ends the stream channel is running exactly when its socket was up in time; a late socket leaves it starting, a failed one ended; nothing is written |
| `NetProtocol.StartDatagram` | src/com/almasb/fxgl/net/Client.java:200-208 | when connect's wait ends the datagram channel is in its loop exactly when its socket was up in time and its OPEN was sent, and then it has written exactly one OPEN; it is starting exactly when its socket is late; otherwise it is not running and has written nothing |
| `NetProtocol.LateStart` | src/com/almasb/fxgl/net/Client.java:163-208 | a late socket coming up (or failing) changes only its own channel and only while that channel is still starting; the other channel and the parser map are unchanged |
| `NetProtocol.ReceiveTcp` | src/com/almasb/fxgl/net/Client.java:172-185 | a read on the TCP loop changes only the TCP channel, as Step says, using the current parser map |
| `NetProtocol.ReceiveUdp` | src/com/almasb/fxgl/net/Client.java:210-228 | a read on the UDP loop changes only the UDP channel, as Step says |
| `NetProtocol.DisconnectTcp` | src/com/almasb/fxgl/net/Client.java:94-102 | after disconnectTCP the TCP flag is false; the UDP channel and the parser map are unchanged |
| `NetProtocol.DisconnectUdp` | src/com/almasb/fxgl/net/Client.java:104-112 | after disconnectUDP the UDP flag is false; the TCP channel and the parser map are unchanged |
| `NetProtocol.Disconnect` | src/com/almasb/fxgl/net/Client.java:89-92 | no ensures of its own: disconnectTCP then disconnectUDP; stated by DisconnectEffect and DisconnectTwice |
| `NetProtocol.DisconnectEffect` | src/com/almasb/fxgl/net/Client.java:89-112 | after disconnect both flags are false whatever the sends did; each channel got exactly one CLOSING iff it was running and its own write worked, independently of the other; phases, logs and parsers are unchanged |
| `NetProtocol.DisconnectTwice` | src/com/almasb/fxgl/net/Client.java:89-112 | a second disconnect sends nothing and changes nothing |
| `NetProtocol.Connect` | src/com/almasb/fxgl/net/Client.java:80-87 | no ensures of its own: resolve the host, start both threads, report whether both were ready in time; stated by ConnectOutcomeIff, LateChannelKeepsRunning and ConnectIgnoresAnnouncement |
| `NetProtocol.ConnectOutcomeIff` | src/com/almasb/fxgl/net/Client.java:80-87 | connect reports success iff the host resolves, the threads were never started and both sockets are ready in time; a second connect fails with AlreadyStarted and changes nothing |
| `NetProtocol.LateChannelKeepsRunning` | src/com/almasb/fxgl/net/Client.java:83-86 | for any readiness with at least one late socket connect reports TimedOut; a late channel is starting and not running, and once its socket comes up it runs (the UDP one exactly when its OPEN send works) |
| `NetProtocol.LateSocketRefusesSends` | src/com/almasb/fxgl/net/Client.java:130-147 | on a reachable client, any send on a channel whose socket is not up yet is NotConnected and changes nothing |
| `NetProtocol.DisconnectBeforeLateStart` | src/com/almasb/fxgl/net/Client.java:89-112 | a disconnect while both sockets are late changes nothing; when the sockets then come up the TCP channel runs, and the UDP one exactly when its OPEN send works |
| `NetProtocol.DisconnectUndoneByLateStart` | src/com/almasb/fxgl/net/Client.java:80-170 | a fresh client whose connect times out, then is disconnected, then gets its stream socket has its TCP channel running in its loop |
| `NetProtocol.ConnectIgnoresAnnouncement` | src/com/almasb/fxgl/net/Client.java:203-208 | with both sockets up in time connect reports Connected whatever the OPEN send does; in the model, where OPEN is sent before connect returns, the UDP channel is in its loop exactly when that send works, and otherwise has ended with nothing written |
| `NetProtocol.ApplyKeepsInv` | src/com/almasb/fxgl/net/Client.java:80-234 | every client operation and every loop read keeps SessionInv and only extends each channel's output and dispatch log, so a parser registered later never sees values dropped before it |
| `NetProtocol.ReplayKeepsInv` | src/com/almasb/fxgl/net/Client.java:80-234 | any sequence of operations and reads keeps SessionInv |
| `NetProtocol.UdpAnnouncesFirst` | src/com/almasb/fxgl/net/Client.java:203-208 | from a fresh client, under any sequence of the model's events (operations, late starts and reads, with the datagram start as one step), a UDP channel that is in its loop, left it normally or dispatched anything has OPEN as the first value it wrote |
| `NetClient.Channel.constructor` | src/com/almasb/fxgl/net/Client.java:158-160 | a new channel is idle, not running, with nothing written or dispatched |
| `NetClient.Channel.Send` | src/com/almasb/fxgl/net/Client.java:130-147 | the guarded write changes the channel exactly as Send |
| `NetClient.Channel.StreamUp` | src/com/almasb/fxgl/net/Client.java:166-170 | changes the channel exactly as StreamUp |
| `NetClient.Channel.DatagramUp` | src/com/almasb/fxgl/net/Client.java:203-208 | sets running and sends OPEN, changing the channel exactly as DatagramUp |
| `NetClient.Channel.SocketFailed` | src/com/almasb/fxgl/net/Client.java:187-190 | changes the channel exactly as SocketFailed |
| `NetClient.Channel.StartStream` | src/com/almasb/fxgl/net/Client.java:163-170 | the stream thread's start changes the channel exactly as StartStream |
| `NetClient.Channel.StartDatagram` | src/com/almasb/fxgl/net/Client.java:203-208 | the datagram thread's start, with its OPEN, changes the channel exactly as StartDatagram |
| `NetClient.Channel.Step` | src/com/almasb/fxgl/net/Client.java:210-234 | one loop iteration changes the channel exactly as Step |
| `NetClient.Client.constructor` | src/com/almasb/fxgl/net/Client.java:50-72 | a new client has two distinct idle channels and no parsers, and satisfies Valid |
| `NetClient.Client.Connect` | src/com/almasb/fxgl/net/Client.java:80-87 | changes the state and reports exactly as Connect, keeping Valid |
| `NetClient.Client.Send` | src/com/almasb/fxgl/net/Client.java:123-128 | routes and changes the state exactly as SendVia, keeping Valid |
| `NetClient.Client.SendDefault` | src/com/almasb/fxgl/net/Client.java:119-121 | behaves as SendDefault, keeping Valid |
| `NetClient.Client.AddParser` | src/com/almasb/fxgl/net/Client.java:115-117 | updates the map exactly as AddParser, keeping Valid |
| `NetClient.Client.DisconnectTcp` | src/com/almasb/fxgl/net/Client.java:94-102 | attempts CLOSING on TCP through the client's send, ignores its failure, then clears the TCP flag, changing the state exactly as DisconnectTcp and keeping Valid |
| `NetClient.Client.DisconnectUdp` | src/com/almasb/fxgl/net/Client.java:104-112 | attempts CLOSING on UDP through the client's send, ignores its failure, then clears the UDP flag, changing the state exactly as DisconnectUdp and keeping Valid |
| `NetClient.Client.LateStart` | src/com/almasb/fxgl/net/Client.java:163-208 | a late socket coming up or failing changes the state exactly as LateStart, keeping Valid |
| `NetClient.Client.Disconnect` | src/com/almasb/fxgl/net/Client.java:89-92 | changes the state exactly as Disconnect, keeping Valid |
| `NetClient.Client.ReceiveTcp` | src/com/almasb/fxgl/net/Client.java:172-190 | one TCP read changes the state exactly as ReceiveTcp, keeping Valid |
| `NetClient.Client.ReceiveUdp` | src/com/almasb/fxgl/net/Client.java:215-234 | one UDP read changes the state exactly as ReceiveUdp, keeping Valid |
| `EntityGroupModel.IsGroupType` | fxgl/src/main/kotlin/com/almasb/fxgl/ecs/EntityGroup.kt:57-58 | an entity belongs to the group iff it has a type component whose value is one of the group's types |
| `EntityGroupModel.RemoveFirst` | fxgl/src/main/kotlin/com/almasb/fxgl/ecs/EntityGroup.kt:51 | no ensures of its own: removal of the first identical occurrence; stated by RemoveFirstAbsent, RemoveFirstAt, RemoveFirstCount and UnnamedRemoveFirst |
| `EntityGroupModel.RemoveEach` | fxgl/src/main/kotlin/com/almasb/fxgl/ecs/EntityGroup.kt:51 | no ensures of its own: `removeAll(list, true)` as one RemoveFirst per queued entry, in queue order; stated by RemoveEachCount and UnnamedRemoveEach |
| `EntityGroupModel.Updated` | fxgl/src/main/kotlin/com/almasb/fxgl/ecs/EntityGroup.kt:49-51 | no ensures of its own: the list after update is the old list plus the additions, minus the removals; stated by UpdatedMembership, UpdatedKeepsUnnamed and UpdatedNothingQueued |
| `EntityGroupModel.ActiveOf` | fxgl/src/main/kotlin/com/almasb/fxgl/ecs/EntityGroup.kt:32-36 | no ensures of its own: the active entities of the list in order; stated by ActiveOfCount |
| `EntityGroupModel.Selected` | fxgl/src/main/kotlin/com/almasb/fxgl/ecs/EntityGroup.kt:42 | no ensures of its own: the entities that pass the filter, in order; stated by SelectedCount and ActiveSelectedCount |
| `EntityGroupModel.IndexOf` | fxgl/src/main/kotlin/com/almasb/fxgl/ecs/EntityGroup.kt:51 | the result is the first position holding the entity |
| `EntityGroupModel.RemoveFirstAbsent` | fxgl/src/main/kotlin/com/almasb/fxgl/ecs/EntityGroup.kt:51 | removing an entity that is not in the list leaves it unchanged |
| `EntityGroupModel.RemoveFirstAt` | fxgl/src/main/kotlin/com/almasb/fxgl/ecs/EntityGroup.kt:51 | removing an entity cuts out exactly its first occurrence and keeps the rest in order |
| `EntityGroupModel.RemoveFirstCount` | fxgl/src/main/kotlin/com/almasb/fxgl/ecs/EntityGroup.kt:51 | removing an entity takes exactly one occurrence of it out of the list's multiset, if there is one |
| `EntityGroupModel.RemoveEachCount` | fxgl/src/main/kotlin/com/almasb/fxgl/ecs/EntityGroup.kt:51 | removeAll by identity leaves the multiset difference of the list and the removal queue |
| `EntityGroupModel.UpdatedMembership` | fxgl/src/main/kotlin/com/almasb/fxgl/ecs/EntityGroup.kt:49-51 | after update an entity is present iff it occurs in the list and the additions more often than in the removals; one added and removed in the same batch is absent |
| `EntityGroupModel.UnnamedAppend` | fxgl/src/main/kotlin/com/almasb/fxgl/ecs/EntityGroup.kt:50 | appending preserves the order of entities outside a given set |
| `EntityGroupModel.UnnamedRemoveFirst` | fxgl/src/main/kotlin/com/almasb/fxgl/ecs/EntityGroup.kt:51 | removing a named entity leaves the unnamed entities and their order unchanged |
| `EntityGroupModel.UnnamedRemoveEach` | fxgl/src/main/kotlin/com/almasb/fxgl/ecs/EntityGroup.kt:51 | removing any number of named entities leaves the unnamed entities and their order unchanged |
| `EntityGroupModel.UnnamedOfNamed` | fxgl/src/main/kotlin/com/almasb/fxgl/ecs/EntityGroup.kt:50 | a list of named entities contributes no unnamed ones |
| `EntityGroupModel.UpdatedKeepsUnnamed` | fxgl/src/main/kotlin/com/almasb/fxgl/ecs/EntityGroup.kt:49-54 | entities named in neither queue stay in the list in their original relative order |
| `EntityGroupModel.UpdatedNothingQueued` | fxgl/src/main/kotlin/com/almasb/fxgl/ecs/EntityGroup.kt:49-54 | with empty queues update leaves the list unchanged, so update is idempotent |
| `EntityGroupModel.ActiveOfCount` | fxgl/src/main/kotlin/com/almasb/fxgl/ecs/EntityGroup.kt:32-36 | the visited entities are exactly the active occurrences of the list, each once; inactive ones are skipped |
| `EntityGroupModel.SelectedCount` | fxgl/src/main/kotlin/com/almasb/fxgl/ecs/EntityGroup.kt:42 | filtering keeps exactly the occurrences that pass the filter |
| `EntityGroupModel.ActiveSelectedCount` | fxgl/src/main/kotlin/com/almasb/fxgl/ecs/EntityGroup.kt:39-47 | the filtered iteration visits exactly the occurrences that pass the filter and are active |
| `EntityGroupModel.Entity.constructor` | fxgl/src/main/kotlin/com/almasb/fxgl/ecs/EntityGroup.kt:56-57 | an entity with the given active flag and optional type component |
| `EntityGroupModel.EntityGroup.constructor` | fxgl/src/main/kotlin/com/almasb/fxgl/ecs/EntityGroup.kt:21-27 | the group holds the initial entities and the given types, with both queues empty |
| `EntityGroupModel.EntityGroup.Update` | fxgl/src/main/kotlin/com/almasb/fxgl/ecs/EntityGroup.kt:49-54 | the list becomes the old list plus the additions minus the removals, and both queues are empty |
| `EntityGroupModel.EntityGroup.ForEach` | fxgl/src/main/kotlin/com/almasb/fxgl/ecs/EntityGroup.kt:29-37 | applies update, then hands the action exactly the active entities of the updated list in list order; inactive ones stay in the list |
| `EntityGroupModel.EntityGroup.ForEachSelected` | fxgl/src/main/kotlin/com/almasb/fxgl/ecs/EntityGroup.kt:39-47 | applies update, then hands the action exactly the updated entities that pass the filter and are active, in list order |
| `EntityGroupModel.EntityGroup.OnEntityAdded` | fxgl/src/main/kotlin/com/almasb/fxgl/ecs/EntityGroup.kt:56-64 | appends the entity to the addition queue iff it is of one of the group's types; the list and the removal queue are unchanged |
| `EntityGroupModel.EntityGroup.OnEntityRemoved` | fxgl/src/main/kotlin/com/almasb/fxgl/ecs/EntityGroup.kt:66-74 | appends the entity to the removal queue iff it is of one of the group's types; the list and the addition queue are unchanged |
| `EntityGroupModel.UpdateTwice` | fxgl/src/main/kotlin/com/almasb/fxgl/ecs/EntityGroup.kt:49-54 | two updates with no listener event in between leave the list as one update does |

## Left out

- Threads, the `CountDownLatch` and the 10-second wait in `connect` are left out because
  they are concurrency and timing. Whether a socket is ready in time is the `Readiness`
  parameter, a late socket is the separate event `LateStartCall`, and the model runs
  sequentially. For a socket that is up in time, the short window between
  `latch.countDown()` and `running = true` is not represented: the channel is running
  when `connect` returns.
- `NetProtocol.DatagramUp` (and so `StartDatagram`, `LateStart` and
  `NetClient.Channel.DatagramUp`) is one atomic step. The source sets `running` and only
  then sends `OPEN` (`Client.java:206-208`), and `connect` may already have returned. So
  the model does not capture two things. A collaborator's `send` can be written before
  `OPEN`. A `disconnectUDP` can write `CLOSING` first, after which the thread's own `OPEN`
  send throws and the channel ends. `UdpAnnouncesFirst` holds for the model's events only,
  not for every thread interleaving of the source. The race in which a disconnect clears
  `running` while a read is blocked is covered only in its effect: a read that arrives
  after the flag was cleared is processed, and the loop then exits.
- Sockets, datagram packets, address resolution, `setTcpNoDelay`, daemon flags and the
  16384-byte receive buffer are I/O plumbing. The server address and ports are not
  modelled.
- Java object serialization (`toByteArray`, `readObject`) is a foreign library. The wire
  value is the `Msg` variant. A failed decode or read is `ReadFailed`. A `null` read is
  not modelled. The codec's round trip (decoding what was encoded) is therefore not
  stated.
- A write that throws is modelled as writing nothing. A partially written object is not
  represented.
- Parser callbacks are identifiers that are recorded when invoked. A callback that
  throws, blocks or calls back into the client is not modelled.
- Logging calls are left out.
- Concurrent access to the parser map from several threads is not modelled.
- `EntityGroup` callbacks are abstracted. The `action` of `forEach` is the returned
  sequence of visited entities. An action that changes other entities' `active` flags
  during the iteration is not modelled.
- `EntityGroup` filters are a pure function of the entity (`Entity -> bool`), which is
  the `filter` predicate of `forEach`.
- `TypeComponent.isType` is equality of the component's value with a group type.
- `ServiceType.java`, the two sample applications and `GameplayStats.kt` (commented out)
  are not part of this model.
