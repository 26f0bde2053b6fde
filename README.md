# ProxyLink network mirror, modelled in Dafny

ProxyLink keeps a network-wide view across a fleet of proxies. It tracks which backend
servers exist, with their type, host, port and occupancy. It also tracks which backend
server each connected user is on. The authoritative copy lives in Redis. Every proxy
keeps a local mirror of it, and updates that mirror from packets broadcast over Redis
pub/sub.

This project models the component that applies those packets, `NetworkPubSub`, and the
backend server record it stores.

- `backend_server.dfy`, module `BackendServer`: the server record as a datatype, with
  Java's `int` as the newtype `Int32`, and the derived predicate `IsFull`.
- `network_pubsub.dfy`, module `NetworkPubSub`:
  - the nine packet kinds as one datatype, and the channel keys they are decoded under;
  - the effect of one packet on the mirror as the pure function `Apply`, and of a
    sequence of packets, in delivery order, as `Replay`;
  - the objects the source mutates in place, as classes: `LocalNetworkState`, which
    holds the server and user-routing tables; `RedisNetworkService`, the authoritative
    store, reduced to a full fetch that can fail and counts its calls; `EventExecutor`,
    the event bus, reduced to a ghost log of posted events; and `NetworkPubSub`, which
    holds the decoder registry and the entry points `registerPackets`, `processPacket`,
    `updateLocalNetworkState` and `onConnectionLost`.

Each packet-handling method (`ProcessPacket`, `UpdateLocalNetworkState`) is proved
against `Apply`: the mirror afterwards is `Apply(old mirror, packet)`. The repair-fetch
count rises by one exactly when the packet is a player-count update for a server the
mirror does not hold. What the source promises
for each packet kind is then proved about `Apply` and `Replay` as lemmas.

A player-count update for an unknown server calls the store's `getServers()` once. The
log lines around it call this a resync (`NetworkPubSub.java:90,96`). Its result is
discarded at `NetworkPubSub.java:92`, and a `ServiceException` from it is swallowed
(`NetworkPubSub.java:93-95`). The model leaves the mirror exactly as it was. That rests
on the assumption, listed under "## Left out", that the fetch does not itself write the
mirror.

`BackendServer.Server.IsFull` (`BackendServer.java:17-19`) is the definition itself. The
four `IsFull*` lemmas in the table state what it promises. `FullAtCapacityScenario` is a
worked example: it registers a server with capacity 10 and no players through the class
methods, updates the count to 10, and checks that the server is full and that it is gone
after the connection is lost.

## Model

| member | source | states |
|---|---|---|
| `BackendServer.IsFullAtCapacity` | proxylink-common/src/main/java/com/blockbyblockwest/fest/proxylink/models/BackendServer.java:17-19 | a server whose player count equals its maximum is full |
| `BackendServer.IsFullBelowCapacity` | proxylink-common/src/main/java/com/blockbyblockwest/fest/proxylink/models/BackendServer.java:17-19 | a server whose player count is below its maximum is not full (with the lemmas above and below: full exactly when count >= max) |
| `BackendServer.IsFullMonotone` | proxylink-common/src/main/java/com/blockbyblockwest/fest/proxylink/models/BackendServer.java:17-19 | a full server stays full when its count is raised and its maximum is kept |
| `BackendServer.IsFullIgnoresOtherFields` | proxylink-common/src/main/java/com/blockbyblockwest/fest/proxylink/models/BackendServer.java:7-19 | two records with the same player count and maximum agree on fullness, whatever their type, host, port or id |
| `NetworkPubSub.KeyOf` | proxylink-common/src/main/java/com/blockbyblockwest/fest/proxylink/redis/pubsub/NetworkPubSub.java:37-51 | the high-frequency player-count key is the key of player-count updates and of no other packet |
| `NetworkPubSub.PacketKeys` | proxylink-common/src/main/java/com/blockbyblockwest/fest/proxylink/redis/pubsub/NetworkPubSub.java:36-52 | the player-count key is in the registry exactly when high-frequency packets are requested |
| `NetworkPubSub.PacketKeysAlwaysHoldOtherKinds` | proxylink-common/src/main/java/com/blockbyblockwest/fest/proxylink/redis/pubsub/NetworkPubSub.java:36-52 | the eight other keys are registered whatever the flag |
| `NetworkPubSub.DecodableKinds` | proxylink-common/src/main/java/com/blockbyblockwest/fest/proxylink/redis/pubsub/NetworkPubSub.java:36-52 | a packet's kind is in the registry exactly when the flag is on or the packet is not a player-count update |
| `NetworkPubSub.Apply` | proxylink-common/src/main/java/com/blockbyblockwest/fest/proxylink/redis/pubsub/NetworkPubSub.java:60-100 | only server packets change the server table, only switch and disconnect change the routing table, only a register adds a server id, records stay keyed by their own id, and a player-count update for an unknown server changes nothing |
| `NetworkPubSub.ApplyRegister` | proxylink-common/src/main/java/com/blockbyblockwest/fest/proxylink/redis/pubsub/NetworkPubSub.java:61-65 | after a register the record is stored under its own id, overwriting any earlier one; other records and all routes are unchanged |
| `NetworkPubSub.ApplyUnregister` | proxylink-common/src/main/java/com/blockbyblockwest/fest/proxylink/redis/pubsub/NetworkPubSub.java:67-69 | after an unregister the id is absent and the other records are unchanged; with the id already absent the mirror is unchanged; routes are untouched |
| `NetworkPubSub.ApplySwitchServer` | proxylink-common/src/main/java/com/blockbyblockwest/fest/proxylink/redis/pubsub/NetworkPubSub.java:71-75 | after a switch the user is routed to the target, even a server the mirror does not hold; other routes and the server table are unchanged |
| `NetworkPubSub.SwitchTwiceKeepsLast` | proxylink-common/src/main/java/com/blockbyblockwest/fest/proxylink/redis/pubsub/NetworkPubSub.java:71-75 | switching to B then to C leaves the same mirror as switching straight to C (replace, not accumulate) |
| `NetworkPubSub.ApplyDisconnect` | proxylink-common/src/main/java/com/blockbyblockwest/fest/proxylink/redis/pubsub/NetworkPubSub.java:77-79 | after a disconnect the user has no route; other routes and the server table are unchanged |
| `NetworkPubSub.ApplyUpdatePresent` | proxylink-common/src/main/java/com/blockbyblockwest/fest/proxylink/redis/pubsub/NetworkPubSub.java:81-86 | an update for a known server sets its player count; its id, type, host, port and maximum, all other records and all routes are unchanged |
| `NetworkPubSub.ApplyUpdateAbsent` | proxylink-common/src/main/java/com/blockbyblockwest/fest/proxylink/redis/pubsub/NetworkPubSub.java:87-97 | an update for an unknown server is dropped: the mirror is unchanged |
| `NetworkPubSub.ApplyPassThrough` | proxylink-common/src/main/java/com/blockbyblockwest/fest/proxylink/redis/pubsub/NetworkPubSub.java:60-100 | broadcast, kick, message and switch-request packets leave the mirror unchanged |
| `NetworkPubSub.FullAfterCountReachesCapacity` | proxylink-common/src/main/java/com/blockbyblockwest/fest/proxylink/redis/pubsub/NetworkPubSub.java:81-86 | registering a server and then updating its count to its maximum leaves it present and full |
| `NetworkPubSub.Replay` | proxylink-common/src/main/java/com/blockbyblockwest/fest/proxylink/redis/pubsub/NetworkPubSub.java:60-100 | applying packets in delivery order keeps records keyed by their own id, and adds no server ids other than those of the register packets |
| `NetworkPubSub.RepairFetches` | proxylink-common/src/main/java/com/blockbyblockwest/fest/proxylink/redis/pubsub/NetworkPubSub.java:87-97 | replaying packets makes at most one fetch per packet, and none for a sequence without player-count updates |
| `NetworkPubSub.ReplaySnoc` | proxylink-common/src/main/java/com/blockbyblockwest/fest/proxylink/redis/pubsub/NetworkPubSub.java:60-100 | replaying one more packet is applying it to the replayed mirror |
| `NetworkPubSub.ReplayServerPresence` | proxylink-common/src/main/java/com/blockbyblockwest/fest/proxylink/redis/pubsub/NetworkPubSub.java:61-69 | after any packet sequence a server is present exactly when the last register or unregister for it was a register; with neither, it is present exactly when it was present before |
| `NetworkPubSub.ReplayUserRoute` | proxylink-common/src/main/java/com/blockbyblockwest/fest/proxylink/redis/pubsub/NetworkPubSub.java:71-79 | after any packet sequence a user's route is the target of the user's last switch; a later disconnect leaves no route; with neither, the route is unchanged |
| `NetworkPubSub.SustainedDriftRefetchesEveryTime` | proxylink-common/src/main/java/com/blockbyblockwest/fest/proxylink/redis/pubsub/NetworkPubSub.java:87-97 | n updates for a server the mirror lacks leave the mirror unchanged and cost exactly n repair fetches (no de-duplication) |
| `NetworkPubSub.LocalNetworkState.GetServerInfo` | proxylink-common/src/main/java/com/blockbyblockwest/fest/proxylink/redis/pubsub/NetworkPubSub.java:84-85 | the lookup returns the stored record when the id is present and None (Java's null) exactly when it is absent |
| `NetworkPubSub.LocalNetworkState.Invalidate` | proxylink-common/src/main/java/com/blockbyblockwest/fest/proxylink/redis/pubsub/NetworkPubSub.java:104 | both tables are empty afterwards |
| `NetworkPubSub.RedisNetworkService.GetServers` | proxylink-common/src/main/java/com/blockbyblockwest/fest/proxylink/redis/pubsub/NetworkPubSub.java:91-95 | each call adds one to the fetch count; it fails exactly when the store is unreachable, and otherwise returns the store's whole server set |
| `NetworkPubSub.EventExecutor.PostEvent` | proxylink-common/src/main/java/com/blockbyblockwest/fest/proxylink/redis/pubsub/NetworkPubSub.java:57 | posting appends exactly one delivery to the log |
| `NetworkPubSub.NetworkPubSub.constructor` | proxylink-common/src/main/java/com/blockbyblockwest/fest/proxylink/redis/pubsub/NetworkPubSub.java:29-34 | keeps the three collaborators and starts with no decoders registered |
| `NetworkPubSub.NetworkPubSub.RegisterPacket` | proxylink-common/src/main/java/com/blockbyblockwest/fest/proxylink/redis/pubsub/NetworkPubSub.java:37 | adds one key to the registry, nothing else |
| `NetworkPubSub.NetworkPubSub.RegisterPackets` | proxylink-common/src/main/java/com/blockbyblockwest/fest/proxylink/redis/pubsub/NetworkPubSub.java:36-52 | the registry gains exactly the keys `PacketKeys(highFrequencyPackets)` |
| `NetworkPubSub.NetworkPubSub.ProcessPacket` | proxylink-common/src/main/java/com/blockbyblockwest/fest/proxylink/redis/pubsub/NetworkPubSub.java:55-58 | the mirror becomes `Apply(old mirror, packet)`; the fetch count rises by one exactly on drift; exactly one event, the unchanged packet, is posted, and it is posted after the update, so its handlers see the new mirror |
| `NetworkPubSub.NetworkPubSub.UpdateLocalNetworkState` | proxylink-common/src/main/java/com/blockbyblockwest/fest/proxylink/redis/pubsub/NetworkPubSub.java:60-100 | the mirror becomes `Apply(old mirror, packet)`; the fetch count rises by one exactly when the packet is a player-count update for an unknown server; the store's contents are untouched |
| `NetworkPubSub.NetworkPubSub.OnConnectionLost` | proxylink-common/src/main/java/com/blockbyblockwest/fest/proxylink/redis/pubsub/NetworkPubSub.java:102-105 | both tables are empty afterwards, whatever they held before |
| `NetworkPubSub.DriftRepairIsNotMerged` | proxylink-common/src/main/java/com/blockbyblockwest/fest/proxylink/redis/pubsub/NetworkPubSub.java:87-97 | with the store reachable and holding the missing server, an update for that server still leaves it absent from the mirror and costs exactly one fetch |

## Left out

- Logging and the printed stack trace on a failed fetch (`NetworkPubSub.java:88-96`) have no state and are not modelled.
- How `RedisNetworkService.getServers()` talks to Redis is not part of this model. The store is a map and a reachability flag. Whether the real call also refreshes the local mirror cannot be seen; the model assumes it does not touch it.
- `GenericPacketPubSub` is not part of this model: payload decoding, the Redis subscription and `registerPacket`'s registry. Packets arrive already decoded. The registry is a set of keys, and re-registering a key changes nothing.
- `PubSubPacket.toEvent()` is not part of this model: the posted event is the packet itself.
- `EventExecutor.postEvent` is a foreign event bus. It is modelled only as an append to a ghost log, which also records the mirror that handlers see at delivery.
- `LocalNetworkState` is not part of this model beyond its two maps, which the source reads and writes directly. `invalidate()` is modelled as emptying both maps.
- Unchecked exceptions are not modelled. Only a `ServiceException` from `getServers()` is caught (`NetworkPubSub.java:93`). A runtime exception from it would leave `updateLocalNetworkState` and skip `postEvent` (`NetworkPubSub.java:57`). The model's `ProcessPacket` always posts.
- Concurrency between `onConnectionLost` and an in-flight `processPacket` is not modelled. Every entry point is atomic and sequential.
- Object aliasing of the stored `RedisBackendServer` is not modelled. `setPlayerCount` on the stored object (`NetworkPubSub.java:86`) becomes a replacement of the map value by a record with the new count.
- The `ServerType` enumeration's constants are not part of this model. A server type is an opaque name.
