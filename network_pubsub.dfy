/**
 * The packet-driven synchronisation of a proxy's local network mirror.
 *
 * Packets arrive, already decoded, from the Redis broadcast channel. Each one is
 * first applied to the local mirror (a server table and a user-routing table) and
 * then posted, unchanged, to the embedder's event bus. A player-count update for a
 * server the mirror does not know triggers one full fetch from the authoritative
 * store (logged as a resync); the update itself is dropped and the fetch result
 * is discarded. Losing the channel connection empties the mirror.
 *
 * The first half of the module is the specification on values (Apply, Replay and
 * what is proved about them); the second half is the object graph the source
 * mutates in place, with each packet-handling method proved against Apply.
 */
module NetworkPubSub {

  import opened BackendServer

  datatype Option<T> = None | Some(value: T)

  datatype Result<T, E> = Success(value: T) | Failure(error: E)

  /** A connected user's UUID. */
  datatype UniqueId = UniqueId(uuid: string)

  /** The channel keys under which packet decoders are registered. */
  datatype NetworkKey =
    | ServerRegister
    | ServerUnregister
    | ServerUpdatePlayerCount
    | NetworkBroadcast
    | UserDisconnect
    | UserKick
    | UserMessage
    | UserSwitchServer
    | UserSwitchServerRequest

  /** The closed set of decoded packets, one constructor per packet class. */
  datatype Packet =
    | BackendServerRegisterPacket(serverData: Server)
    | BackendServerUnregisterPacket(id: ServerId)
    | BackendServerUpdatePlayerCountPacket(serverId: ServerId, playerCount: Int32)
    | NetworkBroadcastPacket(message: string)
    | UserDisconnectPacket(uniqueId: UniqueId)
    | UserKickPacket(uniqueId: UniqueId, reason: string)
    | UserMessagePacket(uniqueId: UniqueId, message: string)
    | UserSwitchServerPacket(uniqueId: UniqueId, toServer: ServerId)
    | UserSwitchServerRequestPacket(uniqueId: UniqueId, toServer: ServerId)

  /**
   * The key whose decoder produces packets of this kind. The high-frequency key
   * belongs to player-count updates and to nothing else.
   */
  function KeyOf(p: Packet): (key: NetworkKey)
    ensures key == ServerUpdatePlayerCount <==> p.BackendServerUpdatePlayerCountPacket?
  {
    match p
    case BackendServerRegisterPacket(_) => ServerRegister
    case BackendServerUnregisterPacket(_) => ServerUnregister
    case BackendServerUpdatePlayerCountPacket(_, _) => ServerUpdatePlayerCount
    case NetworkBroadcastPacket(_) => NetworkBroadcast
    case UserDisconnectPacket(_) => UserDisconnect
    case UserKickPacket(_, _) => UserKick
    case UserMessagePacket(_, _) => UserMessage
    case UserSwitchServerPacket(_, _) => UserSwitchServer
    case UserSwitchServerRequestPacket(_, _) => UserSwitchServerRequest
  }

  /**
   * The keys registerPackets installs: all nine kinds, except that the
   * high-frequency player-count kind is present only when asked for.
   */
  function PacketKeys(highFrequencyPackets: bool): (keys: set<NetworkKey>)
    ensures ServerUpdatePlayerCount in keys <==> highFrequencyPackets
  {
    var always := {ServerRegister, ServerUnregister, NetworkBroadcast, UserDisconnect,
                   UserKick, UserMessage, UserSwitchServer, UserSwitchServerRequest};
    if highFrequencyPackets then always + {ServerUpdatePlayerCount} else always
  }

  /** Every kind other than the player-count update is registered whatever the flag. */
  lemma PacketKeysAlwaysHoldOtherKinds(highFrequencyPackets: bool, k: NetworkKey)
    requires k != ServerUpdatePlayerCount
    ensures k in PacketKeys(highFrequencyPackets)
  {
    match k
    case ServerRegister =>
    case ServerUnregister =>
    case NetworkBroadcast =>
    case UserDisconnect =>
    case UserKick =>
    case UserMessage =>
    case UserSwitchServer =>
    case UserSwitchServerRequest =>
  }

  /**
   * With the registry of registerPackets, every kind of packet can be decoded
   * except player-count updates when high-frequency packets are off.
   */
  lemma DecodableKinds(p: Packet, highFrequencyPackets: bool)
    ensures KeyOf(p) in PacketKeys(highFrequencyPackets)
            <==> highFrequencyPackets || !p.BackendServerUpdatePlayerCountPacket?
  {
  }

  // ---------------------------------------------------------------------------
  // The mirror as a value, and the effect of one packet on it
  // ---------------------------------------------------------------------------

  /** The two tables of the local network state. */
  datatype Mirror = Mirror(servers: map<ServerId, Server>, users: map<UniqueId, ServerId>)

  /** The mirror after invalidation. */
  const Invalidated: Mirror := Mirror(map[], map[])

  /** Every server record is stored under its own id. */
  ghost predicate KeyedById(m: Mirror)
  {
    forall id :: id in m.servers ==> m.servers[id].id == id
  }

  /** Register, unregister and player-count update: the packets about servers. */
  predicate IsServerPacket(p: Packet)
  {
    p.BackendServerRegisterPacket? || p.BackendServerUnregisterPacket? || p.BackendServerUpdatePlayerCountPacket?
  }

  /** Switch-server and disconnect: the packets that move users. */
  predicate IsUserPacket(p: Packet)
  {
    p.UserSwitchServerPacket? || p.UserDisconnectPacket?
  }

  /** The packet is a player-count update for a server the mirror does not hold. */
  predicate Drifts(m: Mirror, p: Packet)
  {
    p.BackendServerUpdatePlayerCountPacket? && p.serverId !in m.servers
  }

  /**
   * The change updateLocalNetworkState makes to the mirror for one packet. Only
   * server packets touch the server table, only switch and disconnect touch the
   * routing table, records stay keyed by their ids, and a drifting update leaves
   * everything as it was.
   */
  function Apply(m: Mirror, p: Packet): (r: Mirror)
    ensures !IsUserPacket(p) ==> r.users == m.users
    ensures !IsServerPacket(p) ==> r.servers == m.servers
    ensures r.servers.Keys <= m.servers.Keys + (if p.BackendServerRegisterPacket? then {p.serverData.id} else {})
    ensures KeyedById(m) ==> KeyedById(r)
    ensures Drifts(m, p) ==> r == m
  {
    match p
    case BackendServerRegisterPacket(server) =>
      m.(servers := m.servers[server.id := server])
    case BackendServerUnregisterPacket(id) =>
      m.(servers := m.servers - {id})
    case UserSwitchServerPacket(user, to) =>
      m.(users := m.users[user := to])
    case UserDisconnectPacket(user) =>
      m.(users := m.users - {user})
    case BackendServerUpdatePlayerCountPacket(id, count) =>
      if id in m.servers then m.(servers := m.servers[id := m.servers[id].(playerCount := count)])
      else m
    case NetworkBroadcastPacket(_) => m
    case UserKickPacket(_, _) => m
    case UserMessagePacket(_, _) => m
    case UserSwitchServerRequestPacket(_, _) => m
  }

  /** Register puts or overwrites the record under its own id; nothing else changes. */
  lemma ApplyRegister(m: Mirror, server: Server)
    ensures var r := Apply(m, BackendServerRegisterPacket(server));
      && server.id in r.servers && r.servers[server.id] == server
      && r.servers.Keys == m.servers.Keys + {server.id}
      && (forall id :: id in m.servers && id != server.id ==> r.servers[id] == m.servers[id])
      && r.users == m.users
  {
  }

  /** Unregister removes the id (a no-op when absent); nothing else changes. */
  lemma ApplyUnregister(m: Mirror, id: ServerId)
    ensures var r := Apply(m, BackendServerUnregisterPacket(id));
      && id !in r.servers
      && r.servers.Keys == m.servers.Keys - {id}
      && (forall other :: other in r.servers ==> r.servers[other] == m.servers[other])
      && (id !in m.servers ==> r == m)
      && r.users == m.users
  {
  }

  /** Switch-server routes the user to the target, replacing any earlier route. */
  lemma ApplySwitchServer(m: Mirror, user: UniqueId, to: ServerId)
    ensures var r := Apply(m, UserSwitchServerPacket(user, to));
      && user in r.users && r.users[user] == to
      && r.users.Keys == m.users.Keys + {user}
      && (forall u :: u in m.users && u != user ==> r.users[u] == m.users[u])
      && r.servers == m.servers
  {
  }

  /** Switching a user to one server and then another leaves the second route. */
  lemma SwitchTwiceKeepsLast(m: Mirror, user: UniqueId, first: ServerId, second: ServerId)
    ensures Apply(Apply(m, UserSwitchServerPacket(user, first)), UserSwitchServerPacket(user, second))
         == Apply(m, UserSwitchServerPacket(user, second))
  {
  }

  /** Disconnect removes the user's route; nothing else changes. */
  lemma ApplyDisconnect(m: Mirror, user: UniqueId)
    ensures var r := Apply(m, UserDisconnectPacket(user));
      && user !in r.users
      && r.users.Keys == m.users.Keys - {user}
      && (forall u :: u in r.users ==> r.users[u] == m.users[u])
      && r.servers == m.servers
  {
  }

  /**
   * A player-count update for a known server changes that record's count and
   * nothing else: not its other fields, not other records, not the routes.
   */
  lemma ApplyUpdatePresent(m: Mirror, id: ServerId, count: Int32)
    requires id in m.servers
    ensures var r := Apply(m, BackendServerUpdatePlayerCountPacket(id, count));
      && r.servers.Keys == m.servers.Keys
      && r.servers[id].playerCount == count
      && r.servers[id] == m.servers[id].(playerCount := count)
      && r.servers[id].id == m.servers[id].id
      && r.servers[id].serverType == m.servers[id].serverType
      && r.servers[id].host == m.servers[id].host
      && r.servers[id].port == m.servers[id].port
      && r.servers[id].maxPlayers == m.servers[id].maxPlayers
      && (forall other :: other in m.servers && other != id ==> r.servers[other] == m.servers[other])
      && r.users == m.users
  {
  }

  /** A player-count update for an unknown server is dropped: the mirror is unchanged. */
  lemma ApplyUpdateAbsent(m: Mirror, id: ServerId, count: Int32)
    requires id !in m.servers
    ensures Apply(m, BackendServerUpdatePlayerCountPacket(id, count)) == m
  {
  }

  /** Broadcast, kick, message and switch-request packets leave the mirror alone. */
  lemma ApplyPassThrough(m: Mirror, p: Packet)
    requires p.NetworkBroadcastPacket? || p.UserKickPacket? || p.UserMessagePacket?
             || p.UserSwitchServerRequestPacket?
    ensures Apply(m, p) == m
  {
  }

  /**
   * Registering a server and then updating its count to its capacity makes it
   * full, e.g. capacity 10, count 0, then a count update to 10.
   */
  lemma FullAfterCountReachesCapacity(m: Mirror, server: Server)
    ensures var r := Apply(Apply(m, BackendServerRegisterPacket(server)),
                           BackendServerUpdatePlayerCountPacket(server.id, server.maxPlayers));
      server.id in r.servers && r.servers[server.id].IsFull()
  {
    IsFullAtCapacity(server.(playerCount := server.maxPlayers));
  }

  // ---------------------------------------------------------------------------
  // Replaying packets in channel order
  // ---------------------------------------------------------------------------

  /** The mirror after applying the packets one by one, in delivery order. */
  ghost function Replay(m: Mirror, ps: seq<Packet>): (r: Mirror)
    ensures KeyedById(m) ==> KeyedById(r)
    ensures r.servers.Keys <= m.servers.Keys + RegisteredIds(ps)
    decreases |ps|
  {
    if ps == [] then m else Replay(Apply(m, ps[0]), ps[1..])
  }

  /** The ids carried by the register packets of a sequence. */
  ghost function RegisteredIds(ps: seq<Packet>): set<ServerId>
  {
    set i | 0 <= i < |ps| && ps[i].BackendServerRegisterPacket? :: ps[i].serverData.id
  }

  /**
   * The number of repair fetches made while replaying the packets: at most one
   * per packet, and none at all for a sequence without player-count updates.
   */
  ghost function RepairFetches(m: Mirror, ps: seq<Packet>): (n: nat)
    ensures n <= |ps|
    ensures (forall i :: 0 <= i < |ps| ==> !ps[i].BackendServerUpdatePlayerCountPacket?) ==> n == 0
    decreases |ps|
  {
    if ps == [] then 0
    else (if Drifts(m, ps[0]) then 1 else 0) + RepairFetches(Apply(m, ps[0]), ps[1..])
  }

  /** Replaying one more packet is applying it to the replayed mirror. */
  lemma {:induction false} ReplaySnoc(m: Mirror, ps: seq<Packet>, p: Packet)
    ensures Replay(m, ps + [p]) == Apply(Replay(m, ps), p)
    decreases |ps|
  {
    if ps == [] {
      assert ps + [p] == [p];
    } else {
      assert (ps + [p])[1..] == ps[1..] + [p];
      ReplaySnoc(Apply(m, ps[0]), ps[1..], p);
    }
  }

  /**
   * Whether a packet decides the presence of server `id`: Some(true) for its
   * register, Some(false) for its unregister, None for every other packet.
   */
  function ServerMention(p: Packet, id: ServerId): Option<bool>
  {
    match p
    case BackendServerRegisterPacket(server) => if server.id == id then Some(true) else None
    case BackendServerUnregisterPacket(x) => if x == id then Some(false) else None
    case _ => None
  }

  /** The verdict of the last packet in the sequence that decides the presence of `id`. */
  function LastServerMention(ps: seq<Packet>, id: ServerId): Option<bool>
    decreases |ps|
  {
    if ps == [] then None
    else match ServerMention(ps[|ps| - 1], id)
      case Some(registered) => Some(registered)
      case None => LastServerMention(ps[..|ps| - 1], id)
  }

  /**
   * Order sensitivity of the server table: after a replay a server is present
   * exactly when the last register or unregister for it was a register, or, when
   * the sequence has neither, exactly when it was present before.
   */
  lemma {:induction false} ReplayServerPresence(m: Mirror, ps: seq<Packet>, id: ServerId)
    ensures id in Replay(m, ps).servers <==>
      match LastServerMention(ps, id)
      case Some(registered) => registered
      case None => id in m.servers
    decreases |ps|
  {
    if ps != [] {
      var front, last := ps[..|ps| - 1], ps[|ps| - 1];
      assert ps == front + [last];
      ReplaySnoc(m, front, last);
      ReplayServerPresence(m, front, id);
    }
  }

  /** The server a user is routed to, if any. */
  function UserRoute(m: Mirror, user: UniqueId): Option<ServerId>
  {
    if user in m.users then Some(m.users[user]) else None
  }

  /**
   * Whether a packet decides the route of `user`: Some(Some(to)) for a switch,
   * Some(None) for a disconnect, None for every other packet.
   */
  function UserMention(p: Packet, user: UniqueId): Option<Option<ServerId>>
  {
    match p
    case UserSwitchServerPacket(u, to) => if u == user then Some(Some(to)) else None
    case UserDisconnectPacket(u) => if u == user then Some(None) else None
    case _ => None
  }

  /** The verdict of the last packet in the sequence that decides the route of `user`. */
  function LastUserMention(ps: seq<Packet>, user: UniqueId): Option<Option<ServerId>>
    decreases |ps|
  {
    if ps == [] then None
    else match UserMention(ps[|ps| - 1], user)
      case Some(route) => Some(route)
      case None => LastUserMention(ps[..|ps| - 1], user)
  }

  /**
   * At most one route per user, and it is the latest: after a replay a user is
   * routed to the target of its last switch, unrouted after a later disconnect,
   * and routed as before when the sequence has neither.
   */
  lemma {:induction false} ReplayUserRoute(m: Mirror, ps: seq<Packet>, user: UniqueId)
    ensures UserRoute(Replay(m, ps), user) ==
      match LastUserMention(ps, user)
      case Some(route) => route
      case None => UserRoute(m, user)
    decreases |ps|
  {
    if ps != [] {
      var front, last := ps[..|ps| - 1], ps[|ps| - 1];
      assert ps == front + [last];
      ReplaySnoc(m, front, last);
      ReplayUserRoute(m, front, user);
    }
  }

  /**
   * A burst of player-count updates for a server the mirror does not hold costs
   * one repair fetch per update (there is no de-duplication) and leaves the
   * mirror exactly as it was (every update is dropped).
   */
  lemma {:induction false} SustainedDriftRefetchesEveryTime(m: Mirror, id: ServerId, ps: seq<Packet>)
    requires id !in m.servers
    requires forall i :: 0 <= i < |ps| ==>
      ps[i].BackendServerUpdatePlayerCountPacket? && ps[i].serverId == id
    ensures Replay(m, ps) == m
    ensures RepairFetches(m, ps) == |ps|
    decreases |ps|
  {
    if ps != [] {
      SustainedDriftRefetchesEveryTime(m, id, ps[1..]);
    }
  }

  // ---------------------------------------------------------------------------
  // The objects the source mutates in place
  // ---------------------------------------------------------------------------

  /** The local network state: the server table and the user-routing table. */
  class LocalNetworkState {
    var serverInfo: map<ServerId, Server>
    var userServerMap: map<UniqueId, ServerId>

    constructor ()
      ensures Snapshot() == Invalidated
    {
      serverInfo := map[];
      userServerMap := map[];
    }

    /** The two tables as a value. */
    function Snapshot(): Mirror
      reads this
    {
      Mirror(serverInfo, userServerMap)
    }

    /** The record stored under `id`, or None (Java's null) when there is none. */
    method GetServerInfo(id: ServerId) returns (r: Option<Server>)
      ensures r.Some? <==> id in serverInfo
      ensures r.Some? ==> r.value == serverInfo[id]
    {
      if id in serverInfo {
        r := Some(serverInfo[id]);
      } else {
        r := None;
      }
    }

    /** Forgets every server and every route. */
    method Invalidate()
      modifies this
      ensures Snapshot() == Invalidated
    {
      serverInfo := map[];
      userServerMap := map[];
    }
  }

  /** A failure of the authoritative store. */
  datatype ServiceException = ServiceException(message: string)

  /**
   * A stand-in for the Redis-backed network service: the authoritative server
   * set, whether the store can be reached, and how often it has been asked for
   * the full server set.
   */
  class RedisNetworkService {
    var servers: map<ServerId, Server>
    var reachable: bool
    ghost var fetches: nat

    constructor (servers: map<ServerId, Server>, reachable: bool)
      ensures this.servers == servers && this.reachable == reachable && fetches == 0
    {
      this.servers := servers;
      this.reachable := reachable;
      fetches := 0;
    }

    /** Fetches every server from the store; fails when the store is unreachable. */
    method GetServers() returns (r: Result<set<Server>, ServiceException>)
      modifies this`fetches
      ensures fetches == old(fetches) + 1
      ensures r.Success? <==> reachable
      ensures r.Success? ==> r.value == servers.Values
    {
      fetches := fetches + 1;
      if reachable {
        r := Success(servers.Values);
      } else {
        r := Failure(ServiceException("store unreachable"));
      }
    }
  }

  /** One event handed to the event bus, with the mirror its handlers then observe. */
  datatype Delivery = Delivery(event: Packet, mirror: Mirror)

  /** The embedder's event bus, seen only through the log of posted events. */
  class EventExecutor {
    ghost var posted: seq<Delivery>

    constructor ()
      ensures posted == []
    {
      posted := [];
    }

    method PostEvent(event: Packet, ghost observed: Mirror)
      modifies this
      ensures posted == old(posted) + [Delivery(event, observed)]
    {
      posted := posted + [Delivery(event, observed)];
    }
  }

  class NetworkPubSub {
    const eventExecutor: EventExecutor
    const localNetworkState: LocalNetworkState
    const networkService: RedisNetworkService
    /** The keys that have a registered decoder. */
    var decoders: set<NetworkKey>

    constructor (eventExecutor: EventExecutor, localNetworkState: LocalNetworkState,
                 networkService: RedisNetworkService)
      ensures this.eventExecutor == eventExecutor
      ensures this.localNetworkState == localNetworkState
      ensures this.networkService == networkService
      ensures decoders == {}
    {
      this.eventExecutor := eventExecutor;
      this.localNetworkState := localNetworkState;
      this.networkService := networkService;
      decoders := {};
    }

    /** Installs the decoder for one key. */
    method RegisterPacket(key: NetworkKey)
      modifies this`decoders
      ensures decoders == old(decoders) + {key}
    {
      decoders := decoders + {key};
    }

    /** Installs the decoders of all packet kinds, player-count updates only on request. */
    method RegisterPackets(highFrequencyPackets: bool)
      modifies this`decoders
      ensures decoders == old(decoders) + PacketKeys(highFrequencyPackets)
    {
      RegisterPacket(ServerRegister);
      RegisterPacket(ServerUnregister);

      if highFrequencyPackets {
        RegisterPacket(ServerUpdatePlayerCount);
      }

      RegisterPacket(NetworkBroadcast);

      RegisterPacket(UserDisconnect);
      RegisterPacket(UserKick);
      RegisterPacket(UserMessage);
      RegisterPacket(UserSwitchServer);
      RegisterPacket(UserSwitchServerRequest);
    }

    /**
     * Applies the packet to the mirror, then posts it to the event bus, whose
     * handlers observe the updated mirror.
     */
    method ProcessPacket(packet: Packet)
      modifies localNetworkState, networkService`fetches, eventExecutor
      ensures localNetworkState.Snapshot() == Apply(old(localNetworkState.Snapshot()), packet)
      ensures networkService.fetches ==
        old(networkService.fetches) + (if Drifts(old(localNetworkState.Snapshot()), packet) then 1 else 0)
      ensures eventExecutor.posted ==
        old(eventExecutor.posted) + [Delivery(packet, localNetworkState.Snapshot())]
    {
      UpdateLocalNetworkState(packet);
      eventExecutor.PostEvent(packet, localNetworkState.Snapshot());
    }

    /**
     * Applies one packet to the mirror. A player-count update for an unknown
     * server fetches every server from the store once, ignores a failure of that
     * fetch, discards its result and drops the update.
     */
    method UpdateLocalNetworkState(packet: Packet)
      modifies localNetworkState, networkService`fetches
      ensures localNetworkState.Snapshot() == Apply(old(localNetworkState.Snapshot()), packet)
      ensures networkService.fetches ==
        old(networkService.fetches) + (if Drifts(old(localNetworkState.Snapshot()), packet) then 1 else 0)
    {
      match packet
      case BackendServerRegisterPacket(server) =>
        localNetworkState.serverInfo := localNetworkState.serverInfo[server.id := server];
      case BackendServerUnregisterPacket(id) =>
        localNetworkState.serverInfo := localNetworkState.serverInfo - {id};
      case UserSwitchServerPacket(user, to) =>
        localNetworkState.userServerMap := localNetworkState.userServerMap[user := to];
      case UserDisconnectPacket(user) =>
        localNetworkState.userServerMap := localNetworkState.userServerMap - {user};
      case BackendServerUpdatePlayerCountPacket(id, count) =>
        var serverInfo := localNetworkState.GetServerInfo(id);
        if serverInfo.Some? {
          localNetworkState.serverInfo :=
            localNetworkState.serverInfo[id := serverInfo.value.(playerCount := count)];
        } else {
          // The result of the repair fetch, and any failure of it, are discarded.
          var _ := networkService.GetServers();
        }
      case NetworkBroadcastPacket(_) =>
      case UserKickPacket(_, _) =>
      case UserMessagePacket(_, _) =>
      case UserSwitchServerRequestPacket(_, _) =>
    }

    /** Losing the channel connection empties the whole mirror. */
    method OnConnectionLost()
      modifies localNetworkState
      ensures localNetworkState.Snapshot() == Invalidated
    {
      localNetworkState.Invalidate();
    }
  }

  /**
   * A player-count update for a server the mirror lacks leaves it absent, even
   * when the store is reachable and holds that server: the fetch result is
   * discarded. This holds on the assumption, built into RedisNetworkService
   * here, that fetching the server set does not itself write the mirror.
   */
  method DriftRepairIsNotMerged(pubsub: NetworkPubSub, id: ServerId, count: Int32)
    requires id !in pubsub.localNetworkState.serverInfo
    requires pubsub.networkService.reachable && id in pubsub.networkService.servers
    modifies pubsub.localNetworkState, pubsub.networkService`fetches, pubsub.eventExecutor
    ensures id !in pubsub.localNetworkState.serverInfo
    ensures pubsub.localNetworkState.Snapshot() == old(pubsub.localNetworkState.Snapshot())
    ensures pubsub.networkService.fetches == old(pubsub.networkService.fetches) + 1
  {
    pubsub.ProcessPacket(BackendServerUpdatePlayerCountPacket(id, count));
  }

  /**
   * A worked example through the class methods: a server registered with
   * capacity 10 and no players is full after a count update to 10, and is gone
   * once the connection is lost.
   */
  method FullAtCapacityScenario()
  {
    var state := new LocalNetworkState();
    var executor := new EventExecutor();
    var service := new RedisNetworkService(map[], true);
    var pubsub := new NetworkPubSub(executor, state, service);
    var a := Server("A", ServerType("lobby"), "localhost", 25565, 0, 10);
    pubsub.ProcessPacket(BackendServerRegisterPacket(a));
    pubsub.ProcessPacket(BackendServerUpdatePlayerCountPacket("A", 10));
    var info := state.GetServerInfo("A");
    assert info.Some? && info.value.IsFull();
    pubsub.OnConnectionLost();
    info := state.GetServerInfo("A");
    assert info == None;
  }
}
