# Transport channel lifecycle and gossip dissemination, in Dafny

This project models two pieces of a cluster membership and gossip system:

- **The transport channel.** One connection goes through a lifecycle of six
  states: `CONNECT_IN_PROGRESS`, `CONNECTED`, `HANDSHAKE_IN_PROGRESS`,
  `HANDSHAKE_PASSED`, `READY` and `CLOSED`. Status changes go through a
  compare-and-set (`flip`). The channel also keeps a failure cause (the first
  writer wins), a close callback, the remote handshake data, and the sends and
  closes it issues on the underlying netty channel.
- **The gossip engine, as its unit test pins it down.** Inbound gossip batches
  are deduplicated by gossip id. New gossips are queued, and draining the
  queue delivers them to listeners. A dissemination round opens one channel
  and sends once to each of a fixed number of distinct members.

Files:

- `wrappers.dfy`: `Option` and `Result`. `None` stands for Java's `null` and
  `Failure` for a thrown exception.
- `protocol.dfy`: value types. Transport and cluster endpoints, `Message`,
  `Gossip`, `GossipRequest`, the inbound `TransportMessage` envelope, and
  `GossipLocalState`.
- `transport_channel.dfy`: module `Transport`.
  - `TransportChannel` and `Builder` are classes whose methods change fields,
    as the Java object does.
  - Every mutating method is specified by `Step`, a pure function on a
    `ChannelState` snapshot of all the channel's fields.
  - `Run` folds `Step` over a sequence of calls. The lemmas about `Run` state
    what holds over any sequence of calls.
  - The Java overloads that pass `null` for the cause or the promise are the
    `None` arguments of `Close` and `Send`.
  - `getCause` is the plain field read `GetCause`.
- `package_names.dfy`: module `PackageNames`. The channel's description
  abbreviates the package of its failure cause: it splits on `.`, keeps the
  first character of each segment, and joins with `.` again.
- `gossip_protocol.dfy`: module `Gossip`.
  - Pure functions for deduplication (`NewGossips`, `Inbound`) and for the
    calls a round makes (`RoundCalls`).
  - The `GossipProtocol` class, whose methods are proved against those
    functions.
- `gossip_protocol_test.dfy`: the two scenarios of the unit test, replayed
  against the model. Their results (five deliveries; two `to` calls and two
  `send` calls) follow from the contracts. A third scenario,
  `TestReplayDeliversNothing`, is not in the unit test: it replays the first
  scenario's stream after the drain.

Where the code's behaviour differs from what one might expect of such a
channel, the model follows the code:

- `close` runs the close callback and issues a netty close on every call. It
  is idempotent on status and cause only: two closes mean two callback runs.
- `flip` checks only the expected current status. It enforces no graph of
  allowed edges, and `flip(CLOSED, x)` succeeds. So `CLOSED` is left only
  through a flip that expects it.
- `setRemoteHandshake` may be called again and then overwrites the data.
- If no close callback is registered, `close` records the cause and sets
  `CLOSED`, then raises a `NullPointerException` before closing the netty
  channel. The builder's `set` accepts `null`, which unregisters a callback
  set before.
- The abbreviation raises `StringIndexOutOfBoundsException` on a package name
  with an empty segment.

Four points are modelling assumptions. The unit test is consistent with them,
but none is read from the engine's code, which is not part of this model:

- A message is recognised as gossip by its payload being a `GossipRequest`.
  The test's gossip messages carry no qualifier header, yet their gossips
  must count for the five deliveries to add up; its one other message has
  only the qualifier `com.pt.openapi.hello/` and no payload. The assumption
  is inferred from that; the engine may in fact dispatch on something else.
- A node does not gossip to itself: a round never picks the local member.
  The test cannot observe this: its local member `id@host:1` is not among
  the three members it passes.
- A round with no pending gossip makes no call. The test runs a round only
  with one pending local state.
- A round sends one and the same message to every member it picks: a
  `GossipRequest` holding one gossip per pending local state, in order. A
  local state's member and send count play no part in it, so two states
  with the same gossip put that gossip in twice. The test only expects some
  message to be sent.

## Model

| member | source | states |
|---|---|---|
| `Transport.TransportChannel.constructor` | transport/src/main/java/io/servicefabric/transport/TransportChannel.java:46-49 | a new channel has the given initial status, no cause, no callback, no handshake data and an empty netty log |
| `Transport.Step` | transport/src/main/java/io/servicefabric/transport/TransportChannel.java:56-129 | for any call: a recorded cause is never replaced, only a close records one, the netty log only grows and by at most one request, a call other than close that raises changes nothing, and the handshake data changes only to the non-null data of a handshake call |
| `Transport.Run` | transport/src/main/java/io/servicefabric/transport/TransportChannel.java:89-117 | over any sequence of calls the netty log only grows: no requested write or close is ever withdrawn |
| `Transport.Builder.Connector` | transport/src/main/java/io/servicefabric/transport/TransportChannel.java:156-161 | a connector-built channel is fresh and starts in `CONNECT_IN_PROGRESS` with no cause and no remote handshake |
| `Transport.Builder.Acceptor` | transport/src/main/java/io/servicefabric/transport/TransportChannel.java:163-168 | an acceptor-built channel is fresh and starts in `CONNECTED` with no cause and no remote handshake |
| `Transport.Builder.Set` | transport/src/main/java/io/servicefabric/transport/TransportChannel.java:170-173 | stores the given close callback on the target, a null one included (which unregisters a callback set before), changes nothing else, and returns the same builder |
| `Transport.Builder.Build` | transport/src/main/java/io/servicefabric/transport/TransportChannel.java:175-177 | returns the channel under construction |
| `Transport.TransportChannel.SetRemoteHandshake` | transport/src/main/java/io/servicefabric/transport/TransportChannel.java:56-59 | a null argument raises `IllegalArgument` and changes nothing; otherwise the handshake data is stored and nothing else changes |
| `Transport.TransportChannel.GetRemoteEndpoint` | transport/src/main/java/io/servicefabric/transport/TransportChannel.java:68-70 | null while no handshake data is set, afterwards the data's origin endpoint |
| `Transport.TransportChannel.GetRemoteEndpointId` | transport/src/main/java/io/servicefabric/transport/TransportChannel.java:79-81 | null while no handshake data is set, afterwards the data's origin endpoint id |
| `Transport.TransportChannel.GetCause` | transport/src/main/java/io/servicefabric/transport/TransportChannel.java:131-133 | returns the recorded cause, null while no close has recorded one |
| `Transport.TransportChannel.Send` | transport/src/main/java/io/servicefabric/transport/TransportChannel.java:89-96 | a null message raises; with a promise and a recorded cause the promise fails with exactly that cause and nothing is written; otherwise one write, linked to the promise, is appended to the netty log |
| `Transport.TransportChannel.Close` | transport/src/main/java/io/servicefabric/transport/TransportChannel.java:111-117 | records the cause only if none is recorded (the given one, else a `TransportClosed` naming this channel), sets `CLOSED`, then runs the callback once and issues one netty close (or raises when no callback is set) |
| `Transport.TransportChannel.Flip` | transport/src/main/java/io/servicefabric/transport/TransportChannel.java:124-129 | the channel's new state and reply are those of `Step` for a compare-and-set of the status |
| `Transport.FlipSucceedsIff` | transport/src/main/java/io/servicefabric/transport/TransportChannel.java:124-129 | `flip(e, u)` succeeds exactly when the status is `e`, and then only the status changes, to `u`; otherwise it raises `TransportBroken(e, u, actual)` and the state is unchanged (the cause included) |
| `Transport.FlipAfterCloseFails` | transport/src/main/java/io/servicefabric/transport/TransportChannel.java:111-129 | after a close the status is `CLOSED` and a cause is set, and every flip whose expected status is not `CLOSED` raises and changes nothing |
| `Transport.SendOnFailedChannel` | transport/src/main/java/io/servicefabric/transport/TransportChannel.java:89-96 | on a channel with a cause, a send with a promise fails it with that cause and leaves the state alone, while a send without a promise still writes |
| `Transport.CauseIsStable` | transport/src/main/java/io/servicefabric/transport/TransportChannel.java:112 | once a cause is recorded, no sequence of later calls replaces it |
| `Transport.NoCauseWithoutClose` | transport/src/main/java/io/servicefabric/transport/TransportChannel.java:111-112 | a sequence of calls with no close records no cause |
| `Transport.FirstCloseCauseWins` | transport/src/main/java/io/servicefabric/transport/TransportChannel.java:111-113 | after any sequence of calls, the cause is the one the first close recorded: its explicit cause, or else a `TransportClosed` naming this channel |
| `Transport.CallbackOnEveryClose` | transport/src/main/java/io/servicefabric/transport/TransportChannel.java:111-117 | with a callback registered, over any sequence of calls none of which is `set(null)`, the callback-run count and the netty-close count each grow by exactly the number of closes |
| `Transport.NoCallbackNoNettyClose` | transport/src/main/java/io/servicefabric/transport/TransportChannel.java:111-117 | without a registered callback (never set, or unset by `set(null)`), over any sequence of calls that registers none, no callback runs and no netty close is issued, and none is registered afterwards |
| `Transport.ClosedStaysClosed` | transport/src/main/java/io/servicefabric/transport/TransportChannel.java:113-129 | from `CLOSED`, any sequence of calls with no flip that expects `CLOSED` leaves the status `CLOSED` |
| `Transport.NoWritesOnFailedChannel` | transport/src/main/java/io/servicefabric/transport/TransportChannel.java:89-96 | the netty log only grows; on a channel with a cause, calls whose sends all carry a promise append closes only, never a write |
| `Transport.CloseTwice` | transport/src/main/java/io/servicefabric/transport/TransportChannel.java:111-117 | two closes of a built channel leave it `CLOSED` with the first close's cause (or the default naming the channel), two callback runs and two netty closes |
| `Transport.RemoteEndpointAfterHandshake` | transport/src/main/java/io/servicefabric/transport/TransportChannel.java:56-81 | on a built channel the remote endpoint is null before the handshake, a null handshake is refused with `IllegalArgument` and leaves the id null, and afterwards both accessors return the handshake's values |
| `Transport.HandshakeStable` | transport/src/main/java/io/servicefabric/transport/TransportChannel.java:56-59 | over calls none of which sets non-null handshake data, the handshake data is unchanged |
| `Transport.HandshakeUnsetUntilData` | transport/src/main/java/io/servicefabric/transport/TransportChannel.java:56-81 | a channel without handshake data keeps none, so both remote accessors keep returning null, until non-null data is set; a null argument does not set it |
| `Transport.LastHandshakeWins` | transport/src/main/java/io/servicefabric/transport/TransportChannel.java:56-59 | after any calls, setting non-null data and then any calls that set none leaves exactly that data: the last set wins |
| `PackageNames.Split` | transport/src/main/java/io/servicefabric/transport/TransportChannel.java:143 | splitting on `.` gives one more segment than there are dots, and no segment contains a dot |
| `PackageNames.JoinSplit` | transport/src/main/java/io/servicefabric/transport/TransportChannel.java:143 | joining the segments with `.` gives back the original name |
| `PackageNames.SplitJoin` | transport/src/main/java/io/servicefabric/transport/TransportChannel.java:143 | splitting a join of dot-free segments gives back those segments |
| `PackageNames.Join` | transport/src/main/java/io/servicefabric/transport/TransportChannel.java:143 | a join starts with the first part, and with two or more parts a `.` follows it |
| `PackageNames.Initials` | transport/src/main/java/io/servicefabric/transport/TransportChannel.java:145-147 | one initial per segment, each the one-character prefix of its segment |
| `PackageNames.InitialsSplitBack` | transport/src/main/java/io/servicefabric/transport/TransportChannel.java:143-148 | splitting the joined initials of non-empty dot-free segments gives back those initials |
| `PackageNames.JoinLength` | transport/src/main/java/io/servicefabric/transport/TransportChannel.java:143 | joining n one-character parts gives 2n-1 characters |
| `PackageNames.Abbreviate` | transport/src/main/java/io/servicefabric/transport/TransportChannel.java:140-148 | the abbreviation succeeds exactly when no dot-separated segment is empty (else `StringIndexOutOfBounds`); a result splits on `.` into the initials of the name's segments, one per segment, and is two characters per dot plus one long |
| `PackageNames.AbbreviationFailsIff` | transport/src/main/java/io/servicefabric/transport/TransportChannel.java:146 | taking the first character raises exactly when the name is empty, starts or ends with a dot, or holds two dots in a row |
| `Gossip.NewGossipsExactlyOnce` | cluster/src/test/java/io/servicefabric/cluster/gossip/GossipProtocolTest.java:95-116 | the gossips a batch adds have distinct ids, and their ids are exactly the batch's ids not seen before, one gossip per id |
| `Gossip.KnownBatchAddsNothing` | cluster/src/test/java/io/servicefabric/cluster/gossip/GossipProtocolTest.java:104-107 | a batch whose ids have all been seen adds nothing |
| `Gossip.InboundExactlyOnce` | cluster/src/test/java/io/servicefabric/cluster/gossip/GossipProtocolTest.java:95-116 | for any inbound stream, however its batches overlap, the queued gossips have distinct ids and number exactly the stream's ids not seen before |
| `Gossip.SenderIsIrrelevant` | cluster/src/test/java/io/servicefabric/cluster/gossip/GossipProtocolTest.java:101-107 | two streams with the same messages from different peers queue the same gossips |
| `Gossip.BatchOf` | cluster/src/test/java/io/servicefabric/cluster/gossip/GossipProtocolTest.java:104-107 | a message whose payload is a `GossipRequest` carries that request's gossips, in order; any other message, such as the hello message, carries none |
| `Gossip.NonGossipIsIgnored` | cluster/src/test/java/io/servicefabric/cluster/gossip/GossipProtocolTest.java:104-112 | a message carrying no gossips, such as the hello message, changes neither what a stream queues nor the ids it records, wherever it falls in the stream |
| `Gossip.NewGossips` | cluster/src/test/java/io/servicefabric/cluster/gossip/GossipProtocolTest.java:95-116 | a batch never adds more gossips than it holds |
| `Gossip.NewGossipsFirstOfEachId` | cluster/src/test/java/io/servicefabric/cluster/gossip/GossipProtocolTest.java:104-112 | each gossip a batch adds has an id not seen before and is the first gossip of the batch that carries that id |
| `Gossip.NewGossipsAppend` | cluster/src/test/java/io/servicefabric/cluster/gossip/GossipProtocolTest.java:104-112 | deduplicating two batches in a row equals deduplicating the first, then the second against the ids seen plus the first batch's ids |
| `Gossip.InboundFlattens` | cluster/src/test/java/io/servicefabric/cluster/gossip/GossipProtocolTest.java:104-112 | a stream queues what its batches, concatenated, would queue as one batch |
| `Gossip.InboundFirstOfEachId` | cluster/src/test/java/io/servicefabric/cluster/gossip/GossipProtocolTest.java:104-112 | each gossip a stream queues has an id not seen before and is the first gossip of the whole stream with that id, whichever peer sent it |
| `Gossip.InboundAppend` | cluster/src/test/java/io/servicefabric/cluster/gossip/GossipProtocolTest.java:104-112 | two streams in a row queue what the first queues followed by what the second queues given every id the first carried |
| `Gossip.KnownStreamAddsNothing` | cluster/src/test/java/io/servicefabric/cluster/gossip/GossipProtocolTest.java:104-116 | a stream whose ids have all been seen, such as a replay after a drain, queues nothing |
| `Gossip.QueueBatch` | cluster/src/test/java/io/servicefabric/cluster/gossip/GossipProtocolTest.java:104-116 | the exactly-once invariant survives a batch: distinct queued ids, disjoint from the delivered ones, that together with them make up the ids seen stay so with the batch's new gossips queued and its ids recorded |
| `Gossip.DistinctNewGossips` | cluster/src/test/java/io/servicefabric/cluster/gossip/GossipProtocolTest.java:104-112 | a batch of distinct ids none of which was seen is queued whole, in order |
| `Gossip.RoundMessage` | cluster/src/test/java/io/servicefabric/cluster/gossip/GossipProtocolTest.java:126-134 | the round's message has no qualifier and carries a `GossipRequest` |
| `Gossip.RoundMessageIsReceived` | cluster/src/test/java/io/servicefabric/cluster/gossip/GossipProtocolTest.java:126-134 | a receiver that has seen none of the pending gossips (distinct ids) queues exactly those gossips, in order, from the round's message, whoever sent it |
| `Gossip.RoundCallsShape` | cluster/src/test/java/io/servicefabric/cluster/gossip/GossipProtocolTest.java:127-134 | a round's calls alternate `to(endpoint)` and one `send` on that endpoint's channel, so the `to` count equals the `send` count and both equal the number of targets |
| `Gossip.GossipProtocol.constructor` | cluster/src/test/java/io/servicefabric/cluster/gossip/GossipProtocolTest.java:62 | a new engine for the local member has seen nothing, queued nothing, delivered nothing, and made no calls |
| `Gossip.GossipProtocol.SetMaxGossipSent` | cluster/src/test/java/io/servicefabric/cluster/gossip/GossipProtocolTest.java:63 | sets the resend cap and nothing else |
| `Gossip.GossipProtocol.SetGossipTime` | cluster/src/test/java/io/servicefabric/cluster/gossip/GossipProtocolTest.java:64 | sets the round interval and nothing else |
| `Gossip.GossipProtocol.SetMaxEndpointsToSelect` | cluster/src/test/java/io/servicefabric/cluster/gossip/GossipProtocolTest.java:65 | sets the per-round fan-out and nothing else |
| `Gossip.GossipProtocol.SetClusterMembers` | cluster/src/test/java/io/servicefabric/cluster/gossip/GossipProtocolTest.java:73 | replaces the membership snapshot and nothing else |
| `Gossip.GossipProtocol.Start` | cluster/src/test/java/io/servicefabric/cluster/gossip/GossipProtocolTest.java:54-61 | subscribes to the transport's listen stream exactly once and registers one fixed-delay schedule whose initial delay and period are both `gossipTime` |
| `Gossip.GossipProtocol.Listen` | cluster/src/test/java/io/servicefabric/cluster/gossip/GossipProtocolTest.java:89-94 | a new subscriber gets the next number and an empty list of received payloads, and is marked as joined at the current delivery count, so the invariant that each subscriber has received exactly the payloads delivered since it joined is kept |
| `Gossip.GossipProtocol.OnMessage` | cluster/src/test/java/io/servicefabric/cluster/gossip/GossipProtocolTest.java:104-112 | on a started engine (one listen subscription made), one inbound message records its batch's ids and queues exactly `NewGossips` of its batch behind the pending ones; a non-gossip message changes nothing; the exactly-once invariant between seen, queued and delivered ids is kept |
| `Gossip.GossipProtocol.OnMessages` | cluster/src/test/java/io/servicefabric/cluster/gossip/GossipProtocolTest.java:104-112 | on a started engine, a stream of inbound messages records all their ids, queues exactly `Inbound` of the stream, and keeps the exactly-once invariant |
| `Gossip.GossipProtocol.ProcessGossipQueue` | cluster/src/test/java/io/servicefabric/cluster/gossip/GossipProtocolTest.java:113-116 | empties the queue, appends the queued gossips to the delivered ones in order, and appends their payloads to what every subscriber has received; afterwards the delivered ids are distinct and are exactly the ids seen, and each subscriber still has exactly what was delivered since it joined |
| `Gossip.GossipProtocol.SendGossips` | cluster/src/test/java/io/servicefabric/cluster/gossip/GossipProtocolTest.java:119-134 | with nothing pending it picks no member and makes no call; with one or more pending gossips it picks exactly min(fan-out, candidates) distinct members of the snapshot other than the local one, and for each opens one channel and sends the round's message once |
| `GossipProtocolTest.Init` | cluster/src/test/java/io/servicefabric/cluster/gossip/GossipProtocolTest.java:47-75 | the fixture: three members, fan-out 2, one listen subscription and one 200 ms fixed-delay schedule |
| `GossipProtocolTest.TestListenGossips` | cluster/src/test/java/io/servicefabric/cluster/gossip/GossipProtocolTest.java:86-117 | a subscriber that joined before the batches {1,2,3}, a hello message, {1,2,3} from another peer and {2,4,5} has received exactly 5 payloads after one drain |
| `GossipProtocolTest.TestReplayDeliversNothing` | cluster/src/test/java/io/servicefabric/cluster/gossip/GossipProtocolTest.java:86-117 | a scenario beyond the unit test: the unit test's stream arriving again after the drain, then a second drain, leaves the subscriber with still exactly 5 payloads |
| `GossipProtocolTest.TestSendGossips` | cluster/src/test/java/io/servicefabric/cluster/gossip/GossipProtocolTest.java:119-135 | with three members, fan-out 2 and one pending gossip, a round makes exactly 2 `to` calls and exactly 2 `send` calls |

## Left out

- Concurrency. `AtomicReference` and `volatile` are read as plain sequential fields. Races between `flip`, `close`, inbound processing and rounds are not modelled.
- Netty. `writeAndFlush`, `close` and `setPromise` are recorded as requests in an append-only log, each with the promise linked to it. Their completion is not modelled. The `transportSpi` field, the `ATTR_TRANSPORT` attribute key and logging are not modelled.
- `PackageNames.Initials`: package names are sequences of Unicode scalar values, not of UTF-16 code units. Java's `charAt(0)` returns one code unit, so for a segment that starts with a character outside the Basic Multilingual Plane the source takes a lone high surrogate, where the model takes the whole character.
- The rest of `toString`. Reading the cause's class and package by reflection, and formatting the status and the netty channel, are left out. Only the package abbreviation is modelled, over a given package name.
- The `GossipProtocol` class source is not part of this model. The engine is modelled only as far as its unit test constrains it. So `gossip(payload)`, `stop()`, seeding `GossipLocalState` entries for new gossips, and retiring entries at the `maxGossipSent` cap are not modelled.
- `Gossip.GossipProtocol.SendGossips`: does not say which members a round picks, because the test asserts only their number. It also does not use the `period` argument, whose meaning the test does not show.
- `Gossip.GossipProtocol.OnMessage`: requires a started engine (`listenCalls > 0`), because inbound messages only reach the engine through the subscription `start` makes; delivery before `start` is not modelled.
- `Gossip.RoundMessage`: its contract states the message's shape only; that it carries exactly the pending gossips in order is stated through a receiver, in `Gossip.RoundMessageIsReceived`.
- `Gossip.Inbound` carries no contract of its own; what it queues is stated by `Gossip.InboundFlattens`, `Gossip.InboundExactlyOnce`, `Gossip.InboundFirstOfEachId` and `Gossip.InboundAppend`.
- The scheduler's timing and `shutdownNow`, jmock's expectation checking, and reflective method access are not modelled. The test's expectations are stated as call counts instead.
- `services/src/main/java/io/scalecube/services/inject/ScaleCubeServicesProvider.java` is not part of this model. It is dependency-injection wiring.
- `services-transport-parent/services-transport-rsocket/src/main/java/io/scalecube/services/transport/rsocket/RSocketServerTransport.java` is not part of this model. It is network server binding and disposal.
- `cluster/src/main/java/io/servicefabric/cluster/ICluster.java` is not part of this model. It is an interface with no behaviour.
